/** R2LDanmaku: a lane item that scrolls from the right edge to the left edge. */
module R2L {
  import opened Common
  import opened Items
  import LineDanmaku
  import Collision

  /** The left edge at a progress: it enters at the right edge and leaves past the left edge. */
  function X(drawWidth: int, width: real, progress: real): real
  {
    (drawWidth as real + width) * (1.0 - progress) - width
  }

  /** The rect `onDraw` reports for the measured `size` in lane `line`. */
  function Place(drawWidth: int, lineHeight: int, marginTop: int, size: Size, progress: real, line: int): Rect
  {
    RectAt(X(drawWidth, size.width, progress), LineDanmaku.LaneTop(lineHeight, marginTop, line),
           size.width, size.height)
  }

  /** At progress 0 the item sits just beyond the right edge; at progress 1 just beyond the left. */
  lemma Ends(drawWidth: int, width: real)
    ensures X(drawWidth, width, 0.0) == drawWidth as real
    ensures X(drawWidth, width, 1.0) == -width
  {
  }

  /**
   * The item moves left at a constant speed: `elapsed` milliseconds into its window of
   * `duration * coeff`, its left edge is `speed * elapsed` left of the right edge, with the
   * speed the scroll check assumes for an item of that width.
   */
  lemma MovesAtScrollSpeed(drawWidth: int, width: int, duration: int, coeff: real, elapsed: real)
    requires 0 <= drawWidth && 1 <= width && 0 < duration && 0.0 < coeff
    ensures var progress := elapsed / (duration as real * coeff);
      X(drawWidth, width as real, progress) ==
        drawWidth as real - Collision.Speed(drawWidth, width, duration, coeff) * elapsed
  {
    var span := duration as real * coeff;
    Collision.Positive(duration as real, coeff);
    var progress := elapsed / span;
    var total := drawWidth as real + width as real;
    assert total * (1.0 - progress) - width as real == drawWidth as real - total * progress;
    assert total * progress == total / span * elapsed;
  }

  /**
   * The item has fully entered the screen, its right edge at the surface's right edge, once
   * `width / speed` milliseconds have passed: the instant the scroll check calls full show.
   */
  lemma FullyShownAfterWidthOverSpeed(drawWidth: int, width: int, duration: int, coeff: real)
    requires 0 <= drawWidth && 1 <= width && 0 < duration && 0.0 < coeff
    ensures var speed := Collision.Speed(drawWidth, width, duration, coeff);
      var progress := (width as real / speed) / (duration as real * coeff);
      X(drawWidth, width as real, progress) + width as real == drawWidth as real
  {
    var speed := Collision.Speed(drawWidth, width, duration, coeff);
    MovesAtScrollSpeed(drawWidth, width, duration, coeff, width as real / speed);
    assert speed * (width as real / speed) == width as real;
  }
}
