/** TopDanmaku: a lane item centred horizontally, lanes counted down from the top margin. */
module Top {
  import opened Common
  import opened LineDanmaku

  /** The left edge that centres an item of the given width. */
  function X(drawWidth: int, width: real): real
  {
    (drawWidth as real - width) / 2.0
  }

  /** The rect `onDraw` reports for the measured `size` in lane `line`. */
  function Place(drawWidth: int, lineHeight: int, marginTop: int, size: Size, line: int): Rect
  {
    RectAt(X(drawWidth, size.width), LaneTop(lineHeight, marginTop, line), size.width, size.height)
  }

  /** The item is centred: the space left of it equals the space right of it. */
  lemma Centred(drawWidth: int, width: real)
    ensures X(drawWidth, width) == drawWidth as real - (X(drawWidth, width) + width)
  {
  }

  /** Lane 1 sits at the top margin and each further lane one line height lower. */
  lemma {:induction false} LaneTopSteps(lineHeight: int, marginTop: int, line: int)
    ensures LaneTop(lineHeight, marginTop, 1) == marginTop as real
    ensures LaneTop(lineHeight, marginTop, line + 1) == LaneTop(lineHeight, marginTop, line) + lineHeight as real
  {
    assert lineHeight * line == lineHeight * (line - 1) + lineHeight;
  }

  /**
   * With a positive line height, lanes further down start strictly lower, and an item no
   * taller than the line height never overlaps the item of a later lane.
   */
  lemma LanesAreOrdered(lineHeight: int, marginTop: int, line1: int, line2: int, height: real)
    requires 0 < lineHeight && line1 < line2 && height <= lineHeight as real
    ensures LaneTop(lineHeight, marginTop, line1) < LaneTop(lineHeight, marginTop, line2)
    ensures LaneTop(lineHeight, marginTop, line1) + height <= LaneTop(lineHeight, marginTop, line2)
  {
    MulLeft(line1, line2 - 1, lineHeight);
    assert lineHeight * (line2 - 1) - lineHeight * (line1 - 1) == (line2 - line1) * lineHeight;
  }

  lemma MulLeft(a: int, b: int, c: int)
    requires a <= b && 0 <= c
    ensures a * c <= b * c
  {
    assert b * c - a * c == (b - a) * c;
  }
}
