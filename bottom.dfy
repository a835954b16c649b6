/** BottomDanmaku: a lane item centred horizontally, lanes counted up from the bottom margin. */
module Bottom {
  import opened Common
  import Top

  /** The top edge of lane `line`: lane 1 ends one line height above the bottom margin. */
  function LaneTop(drawHeight: int, lineHeight: int, marginBottom: int, line: int): real
  {
    (drawHeight - lineHeight * line - marginBottom) as real
  }

  /** The rect `onDraw` reports for the measured `size` in lane `line`. */
  function Place(drawWidth: int, drawHeight: int, lineHeight: int, marginBottom: int, size: Size, line: int): Rect
  {
    RectAt(Top.X(drawWidth, size.width), LaneTop(drawHeight, lineHeight, marginBottom, line), size.width, size.height)
  }

  /** Lane 1 ends at the bottom margin, and each further lane sits one line height higher. */
  lemma {:induction false} LaneTopSteps(drawHeight: int, lineHeight: int, marginBottom: int, line: int)
    ensures LaneTop(drawHeight, lineHeight, marginBottom, 1) + lineHeight as real == (drawHeight - marginBottom) as real
    ensures LaneTop(drawHeight, lineHeight, marginBottom, line + 1) ==
            LaneTop(drawHeight, lineHeight, marginBottom, line) - lineHeight as real
  {
    assert lineHeight * (line + 1) == lineHeight * line + lineHeight;
  }

  /**
   * With a positive line height, later lanes sit strictly higher, and an item no taller than
   * the line height never overlaps the item of an earlier lane.
   */
  lemma LanesAreOrdered(drawHeight: int, lineHeight: int, marginBottom: int, line1: int, line2: int, height: real)
    requires 0 < lineHeight && line1 < line2 && height <= lineHeight as real
    ensures LaneTop(drawHeight, lineHeight, marginBottom, line2) < LaneTop(drawHeight, lineHeight, marginBottom, line1)
    ensures LaneTop(drawHeight, lineHeight, marginBottom, line2) + height <= LaneTop(drawHeight, lineHeight, marginBottom, line1)
  {
    Top.MulLeft(line1 + 1, line2, lineHeight);
    assert lineHeight * line2 - lineHeight * line1 == (line2 - line1) * lineHeight;
  }
}
