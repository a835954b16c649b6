/** `LineDanmaku.onBuildCache`: the bitmap that holds a lane item's rendered text. */
module LineDanmaku {
  import opened Common
  import opened Items
  import opened Utils

  /**
   * The cache a lane item's `onBuildCache` would create: the text bounds grown by a third of
   * the text size in each direction, truncated to whole pixels, or nothing when either side
   * comes out as zero.
   */
  function LineCacheFor(tb: TextBounds, textSizeCoefficient: real, a: Attrs): (c: Option<Bitmap>)
    requires a.textSize >= 0.0
    ensures
      var b := tb(a.text, PaintTextSize(a, textSizeCoefficient));
      var pad := a.textSize / 3.0;
      && (c.Some? <==> b.width as real + pad >= 1.0 && b.height as real + pad >= 1.0)
      && (c.Some? ==>
            && b.width <= c.value.width && b.height <= c.value.height
            && c.value.width as real <= b.width as real + pad < c.value.width as real + 1.0
            && c.value.height as real <= b.height as real + pad < c.value.height as real + 1.0)
  {
    var b := tb(a.text, PaintTextSize(a, textSizeCoefficient));
    var width := Padded(b.width, a.textSize);
    var height := Padded(b.height, a.textSize);
    if width == 0 || height == 0 then None else Some(Bitmap(width, height))
  }

  /** A measured side grown by a third of the text size and truncated to whole pixels. */
  function Padded(side: nat, textSize: real): (r: nat)
    requires textSize >= 0.0
    ensures r as real <= side as real + textSize / 3.0 < r as real + 1.0
  {
    Trunc(side as real + textSize / 3.0)
  }

  /** The new `cache` after a build: a declined build leaves the previous value in place. */
  function AfterBuild(previous: Option<Bitmap>, built: Option<Bitmap>): (c: Option<Bitmap>)
    ensures built.Some? ==> c == built
    ensures built.None? ==> c == previous
  {
    if built.Some? then built else previous
  }

  /** Measures the text and stores a bitmap of that size, unless a side would be zero. */
  method OnBuildCache(d: Danmaku, tb: TextBounds, textSizeCoefficient: real)
    requires IsLineKind(d.kind) && d.textSize >= 0.0
    modifies d`cache
    ensures d.cache == AfterBuild(old(d.cache), LineCacheFor(tb, textSizeCoefficient, d.Snapshot()))
  {
    var bounds := tb(d.text, d.textSize * textSizeCoefficient);
    var width := Padded(bounds.width, d.textSize);
    var height := Padded(bounds.height, d.textSize);
    assert PaintTextSize(d.Snapshot(), textSizeCoefficient) == d.textSize * textSizeCoefficient;
    assert bounds == tb(d.Snapshot().text, PaintTextSize(d.Snapshot(), textSizeCoefficient));
    if width == 0 || height == 0 {
      return;
    }
    d.cache := Some(Bitmap(width, height));
  }

  /**
   * The top edge of lane `line` counted from the top of the surface (lane 1 sits at the top
   * margin), used by right-to-left, left-to-right and top items.
   */
  function LaneTop(lineHeight: int, marginTop: int, line: int): real
  {
    (lineHeight * (line - 1)) as real + marginTop as real
  }
}
