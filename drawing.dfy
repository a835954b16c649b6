/**
 * `Danmaku.onDraw` of every item class: which rect an item reports for a progress and a lane,
 * and when it reports none. The canvas calls themselves are not modelled; only their result is.
 */
module Drawing {
  import opened Common
  import opened Items
  import opened Utils
  import CacheExt
  import LineDanmaku
  import SpecialDanmaku
  import R2L
  import L2R
  import Top
  import Bottom
  import BiliSpecial

  /**
   * What `onDraw` reads besides the item: text measurement, the size `getSize` reports for
   * the items drawn as text, the surface size and the config's lane geometry.
   */
  datatype Surface = Surface(measure: Measure, sizeOf: Attrs -> Size, drawWidth: int, drawHeight: int,
                             lineHeight: int, marginTop: int, marginBottom: int)

  /** The classes whose `onDraw` first needs a cached bitmap. */
  predicate DrawsFromCache(k: Kind)
  {
    k == L2R || k == Special
  }

  /** The top edge of lane `line` for a lane item of class `k`. */
  function LaneY(s: Surface, k: Kind, line: int): real
  {
    if k == Bottom then Bottom.LaneTop(s.drawHeight, s.lineHeight, s.marginBottom, line)
    else LineDanmaku.LaneTop(s.lineHeight, s.marginTop, line)
  }

  /**
   * `onDraw`: the item's cache after the call and the rect it reports. An item that draws
   * from its cache reports nothing exactly when it had no cache and none can be built; every
   * other item always reports a rect, and a lane item's rect starts at its lane's top.
   */
  function DrawOutcome(s: Surface, a: Attrs, cache: Option<Bitmap>, progress: real, line: int)
      : (r: (Option<Bitmap>, Option<Rect>))
    requires a.textSize >= 0.0
    ensures r.1.None? <==> DrawsFromCache(a.kind) && cache.None? && CacheExt.BuiltCache(s.measure, a).None?
    ensures DrawsFromCache(a.kind) ==> r.0 == CacheExt.Memo(cache, CacheExt.BuiltCache(s.measure, a))
    ensures !DrawsFromCache(a.kind) ==> r.0 == cache
    ensures IsLineKind(a.kind) && r.1.Some? ==> r.1.value.Rect? && r.1.value.top == LaneY(s, a.kind, line)
  {
    match a.kind
    case R2L =>
      (cache, Some(R2L.Place(s.drawWidth, s.lineHeight, s.marginTop, s.sizeOf(a), progress, line)))
    case Top =>
      (cache, Some(Top.Place(s.drawWidth, s.lineHeight, s.marginTop, s.sizeOf(a), line)))
    case Bottom =>
      (cache, Some(Bottom.Place(s.drawWidth, s.drawHeight, s.lineHeight, s.marginBottom, s.sizeOf(a), line)))
    case BiliSpecial =>
      (cache, Some(BiliSpecial.BiliRect(s.measure, a, progress, s.drawWidth, s.drawHeight)))
    case L2R =>
      var c := CacheExt.Memo(cache, CacheExt.BuiltCache(s.measure, a));
      if c.None? then (c, None)
      else (c, Some(L2R.Place(s.drawWidth, s.lineHeight, s.marginTop, c.value, progress, line)))
    case Special =>
      var c := CacheExt.Memo(cache, CacheExt.BuiltCache(s.measure, a));
      if c.None? then (c, None)
      else
        var b := SpecialDanmaku.BracketOf(a.keyframes, progress);
        (c, Some(SpecialDanmaku.SpecialRect(c.value, b, progress, s.drawWidth, s.drawHeight)))
  }

  /** `onDraw`, dispatched on the item's class. */
  method OnDraw(d: Danmaku, s: Surface, progress: real, line: int) returns (rect: Option<Rect>)
    requires d.textSize >= 0.0
    modifies d`cache
    ensures (d.cache, rect) == DrawOutcome(s, d.Snapshot(), old(d.cache), progress, line)
  {
    match d.kind
    case R2L =>
      rect := Some(R2L.Place(s.drawWidth, s.lineHeight, s.marginTop, s.sizeOf(d.Snapshot()), progress, line));
    case Top =>
      rect := Some(Top.Place(s.drawWidth, s.lineHeight, s.marginTop, s.sizeOf(d.Snapshot()), line));
    case Bottom =>
      rect := Some(Bottom.Place(s.drawWidth, s.drawHeight, s.lineHeight, s.marginBottom, s.sizeOf(d.Snapshot()), line));
    case BiliSpecial =>
      rect := Some(BiliSpecial.BiliRect(s.measure, d.Snapshot(), progress, s.drawWidth, s.drawHeight));
    case L2R =>
      var bitmap, _ := CacheExt.TryBuildCache(d, s.measure);
      if bitmap.None? {
        return None;
      }
      rect := Some(L2R.Place(s.drawWidth, s.lineHeight, s.marginTop, bitmap.value, progress, line));
    case Special =>
      var bitmap, _ := CacheExt.TryBuildCache(d, s.measure);
      if bitmap.None? {
        return None;
      }
      var b := SpecialDanmaku.FindBracket(d.keyframes, progress);
      rect := Some(SpecialDanmaku.SpecialRect(bitmap.value, b, progress, s.drawWidth, s.drawHeight));
  }

  /**
   * Drawing twice in a row changes nothing the second time: a cache built by the first call
   * is reused, and the reported rect is the same.
   */
  lemma DrawTwice(s: Surface, a: Attrs, cache: Option<Bitmap>, progress: real, line: int)
    requires a.textSize >= 0.0
    ensures var first := DrawOutcome(s, a, cache, progress, line);
      DrawOutcome(s, a, first.0, progress, line) == first
  {
  }
}
