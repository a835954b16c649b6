/** `CacheDanmaku.tryBuildCache`: build the drawing cache at most once, then reuse it. */
module CacheExt {
  import opened Common
  import opened Items
  import opened Utils
  import LineDanmaku
  import SpecialDanmaku

  /** The item owns a cache and its text size makes a well-formed bitmap. */
  predicate Buildable(a: Attrs)
  {
    IsCacheKind(a.kind) && a.textSize >= 0.0
  }

  /** The bitmap the item's own `onBuildCache` override would produce, if any. */
  function BuiltCache(m: Measure, a: Attrs): (c: Option<Bitmap>)
    requires Buildable(a)
    ensures IsLineKind(a.kind) ==> c == LineDanmaku.LineCacheFor(m.bounds, m.textSizeCoefficient, a)
    ensures a.kind == Special ==> c == SpecialDanmaku.SpecialCacheFor(m.bounds, m.textSizeCoefficient, a)
  {
    if IsLineKind(a.kind) then LineDanmaku.LineCacheFor(m.bounds, m.textSizeCoefficient, a)
    else SpecialDanmaku.SpecialCacheFor(m.bounds, m.textSizeCoefficient, a)
  }

  /** `onBuildCache`, dispatched on the item's class. */
  method OnBuildCache(d: Danmaku, m: Measure)
    requires Buildable(d.Snapshot())
    modifies d`cache
    ensures d.cache == LineDanmaku.AfterBuild(old(d.cache), BuiltCache(m, d.Snapshot()))
  {
    if IsLineKind(d.kind) {
      LineDanmaku.OnBuildCache(d, m.bounds, m.textSizeCoefficient);
    } else {
      SpecialDanmaku.OnBuildCache(d, m.bounds, m.textSizeCoefficient);
    }
  }

  /** The cache after `tryBuildCache`: an existing cache is kept, a missing one is built. */
  function Memo(cache: Option<Bitmap>, built: Option<Bitmap>): Option<Bitmap>
  {
    if cache.Some? then cache else built
  }

  /**
   * Builds the cache when it is missing and returns the cache field. `builds` counts the
   * calls of `onBuildCache`.
   */
  method TryBuildCache(d: Danmaku, m: Measure) returns (c: Option<Bitmap>, ghost builds: nat)
    requires Buildable(d.Snapshot())
    modifies d`cache
    ensures c == d.cache
    ensures d.cache == Memo(old(d.cache), BuiltCache(m, d.Snapshot()))
    ensures builds == if old(d.cache).None? then 1 else 0
  {
    builds := 0;
    if d.cache.None? {
      OnBuildCache(d, m);
      builds := 1;
    }
    c := d.cache;
  }

  /** A second `tryBuildCache` finds the cache the first one left and returns it unchanged. */
  lemma MemoIdempotent(cache: Option<Bitmap>, built: Option<Bitmap>)
    ensures Memo(Memo(cache, built), built) == Memo(cache, built)
  {
  }

  /** The result is missing only when there was no cache and the build declined to make one. */
  lemma MemoMissing(cache: Option<Bitmap>, built: Option<Bitmap>)
    ensures Memo(cache, built).None? <==> cache.None? && built.None?
    ensures cache.Some? ==> Memo(cache, built) == cache
  {
  }

  /** A lane item whose padded text is smaller than a pixel gets no cache, however often asked. */
  lemma ZeroSizeLineItemStaysUncached(m: Measure, a: Attrs)
    requires Buildable(a) && IsLineKind(a.kind)
    requires m.bounds(a.text, PaintTextSize(a, m.textSizeCoefficient)).width as real + a.textSize / 3.0 < 1.0
    ensures Memo(None, BuiltCache(m, a)) == None
    ensures Memo(Memo(None, BuiltCache(m, a)), BuiltCache(m, a)) == None
  {
  }
}
