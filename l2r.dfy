/** L2RDanmaku: a lane item drawn from its cache that scrolls from the left edge to the right. */
module L2R {
  import opened Common
  import LineDanmaku
  import R2L

  /** The left edge at a progress: it enters past the left edge and leaves at the right edge. */
  function X(drawWidth: int, width: real, progress: real): real
  {
    (drawWidth as real + width) * progress - width
  }

  /** The rect `onDraw` reports for the cached bitmap in lane `line`: exactly the bitmap's size. */
  function Place(drawWidth: int, lineHeight: int, marginTop: int, bitmap: Bitmap, progress: real, line: int): Rect
  {
    RectAt(X(drawWidth, bitmap.width as real, progress), LineDanmaku.LaneTop(lineHeight, marginTop, line),
           bitmap.width as real, bitmap.height as real)
  }

  /** At progress 0 the item sits just beyond the left edge; at progress 1 just beyond the right. */
  lemma Ends(drawWidth: int, width: real)
    ensures X(drawWidth, width, 0.0) == -width
    ensures X(drawWidth, width, 1.0) == drawWidth as real
  {
  }

  /** A left-to-right item is the mirror image of a right-to-left item of the same width. */
  lemma MirrorsR2L(drawWidth: int, width: real, progress: real)
    ensures X(drawWidth, width, progress) == drawWidth as real - width - R2L.X(drawWidth, width, progress)
  {
    var total := drawWidth as real + width;
    assert total * (1.0 - progress) == total - total * progress;
  }
}
