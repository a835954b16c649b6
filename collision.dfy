/**
 * The same-lane collision checks of LineDanmaku+ext.kt and the `willHit` overrides that pick
 * one of them: top and bottom items compare their showing windows, scrolling items compare
 * their motion.
 */
module Collision {
  import opened Common
  import opened Items
  import opened Utils
  import opened CacheExt

  // ----- the static check -----

  /** The last instant of an item's window: `offset + (duration * durationCoefficient).toLong()`. */
  function EndTime(coeff: real, a: Attrs): int
  {
    a.offset + Trunc(a.duration as real * coeff)
  }

  /** `t in offset..end`: the instant lies in the item's inclusive showing window. */
  predicate InWindow(coeff: real, a: Attrs, t: int)
  {
    a.offset <= t <= EndTime(coeff, a)
  }

  /** `checkStaticLineDanmakuHit`: either item starts inside the other's window. */
  predicate StaticHit(coeff: real, a: Attrs, b: Attrs)
  {
    InWindow(coeff, b, a.offset) || InWindow(coeff, a, b.offset)
  }

  /** With non-negative durations, every window contains its own start. */
  lemma WindowHoldsStart(coeff: real, a: Attrs)
    requires 0.0 <= coeff && 0 <= a.duration
    ensures InWindow(coeff, a, a.offset)
  {
    MulNonneg(a.duration as real, coeff);
  }

  lemma MulNonneg(x: real, y: real)
    requires 0.0 <= x && 0.0 <= y
    ensures 0.0 <= x * y
  {
  }

  /** The static check holds exactly when the two inclusive windows share an instant. */
  lemma StaticHitIffOverlap(coeff: real, a: Attrs, b: Attrs)
    requires 0.0 <= coeff && 0 <= a.duration && 0 <= b.duration
    ensures StaticHit(coeff, a, b) <==> exists t :: InWindow(coeff, a, t) && InWindow(coeff, b, t)
  {
    if StaticHit(coeff, a, b) {
      WindowHoldsStart(coeff, a);
      WindowHoldsStart(coeff, b);
      if InWindow(coeff, b, a.offset) {
        assert InWindow(coeff, a, a.offset) && InWindow(coeff, b, a.offset);
      } else {
        assert InWindow(coeff, a, b.offset) && InWindow(coeff, b, b.offset);
      }
    }
    if exists t :: InWindow(coeff, a, t) && InWindow(coeff, b, t) {
      var t :| InWindow(coeff, a, t) && InWindow(coeff, b, t);
      if a.offset <= b.offset {
        assert InWindow(coeff, a, b.offset);
      } else {
        assert InWindow(coeff, b, a.offset);
      }
    }
  }

  /** The static check does not depend on which item asks. */
  lemma StaticHitSymmetric(coeff: real, a: Attrs, b: Attrs)
    ensures StaticHit(coeff, a, b) == StaticHit(coeff, b, a)
  {
  }

  /** An item always collides with an item sharing its window, itself included. */
  lemma StaticHitReflexive(coeff: real, a: Attrs, b: Attrs)
    requires 0.0 <= coeff && 0 <= a.duration
    requires b.offset == a.offset && b.duration == a.duration
    ensures StaticHit(coeff, a, b)
  {
    WindowHoldsStart(coeff, a);
  }

  /** Windows that only touch, one ending at the instant the other starts, count as a hit. */
  lemma StaticHitAtTouch(coeff: real, a: Attrs, b: Attrs)
    requires 0.0 <= coeff && 0 <= a.duration
    requires EndTime(coeff, a) == b.offset
    ensures StaticHit(coeff, a, b) && StaticHit(coeff, b, a)
  {
    WindowHoldsStart(coeff, a);
  }

  // ----- the scroll check -----

  /** Positive durations and coefficient: the speeds are finite and positive. */
  predicate ScrollDefined(drawWidth: int, coeff: real, a: Attrs, b: Attrs)
  {
    0 <= drawWidth && 0.0 < coeff && 0 < a.duration && 0 < b.duration
  }

  /** `(drawWidth + width) / (duration * durationCoefficient)`: pixels per millisecond. */
  function Speed(drawWidth: int, width: int, duration: int, coeff: real): (s: real)
    requires 0 <= drawWidth && 1 <= width && 0 < duration && 0.0 < coeff
    ensures 0.0 < s
  {
    Positive(duration as real, coeff);
    (drawWidth + width) as real / (duration as real * coeff)
  }

  lemma Positive(x: real, y: real)
    requires 0.0 < x && 0.0 < y
    ensures 0.0 < x * y
  {
  }

  /** The instant an item has fully entered the screen: `offset + (width / speed).toLong()`. */
  function FullShowTime(offset: int, width: int, speed: real): int
    requires 0.0 < speed
  {
    offset + Trunc(width as real / speed)
  }

  /**
   * The catch-up test of the scroll check, seen from the item that started first (the
   * leader). `gap` is how far the leader's tail is inside the screen when the chaser
   * appears `lag` milliseconds later; the chaser needs `gap / (chaserSpeed - leaderSpeed)`
   * to close it, and that must happen before the chaser has crossed the screen.
   */
  predicate CatchUp(drawWidth: int, leaderSpeed: real, leaderWidth: int, lag: int, chaserSpeed: real)
    requires 0.0 < chaserSpeed && chaserSpeed != leaderSpeed
  {
    var gap := leaderSpeed * lag as real - leaderWidth as real;
    gap > 0.0 && 0.0 <= gap / (chaserSpeed - leaderSpeed) <= drawWidth as real / chaserSpeed
  }

  /**
   * `checkScrollLineDanmakuHit` once both caches are known: `thisCache` is the asking item's
   * cache after its build attempt, `otherCache` the other item's cache.
   */
  function ScrollDecision(drawWidth: int, coeff: real, a: Attrs, b: Attrs,
                          thisCache: Option<Bitmap>, otherCache: Option<Bitmap>): bool
    requires ScrollDefined(drawWidth, coeff, a, b)
  {
    if a.offset == b.offset then true
    else if otherCache.None? then false
    else
      var otherSpeed := Speed(drawWidth, otherCache.value.width, b.duration, coeff);
      if b.offset <= a.offset <= FullShowTime(b.offset, otherCache.value.width, otherSpeed) then true
      else if thisCache.None? then false
      else
        var thisSpeed := Speed(drawWidth, thisCache.value.width, a.duration, coeff);
        if a.offset <= b.offset <= FullShowTime(a.offset, thisCache.value.width, thisSpeed) then true
        else if thisSpeed == otherSpeed then false
        else
          CatchUp(drawWidth, otherSpeed, otherCache.value.width, a.offset - b.offset, thisSpeed) ||
          CatchUp(drawWidth, thisSpeed, thisCache.value.width, b.offset - a.offset, otherSpeed)
  }

  /** The whole scroll check: the asking item's cache after the call, and the verdict. */
  function ScrollHit(m: Measure, drawWidth: int, coeff: real, a: Attrs, b: Attrs,
                     thisCache: Option<Bitmap>, otherCache: Option<Bitmap>): (r: (Option<Bitmap>, bool))
    requires ScrollDefined(drawWidth, coeff, a, b) && Buildable(a)
    ensures a.offset == b.offset ==> r == (thisCache, true)
    ensures a.offset != b.offset ==> r.0 == Memo(thisCache, BuiltCache(m, a))
    ensures a.offset != b.offset && otherCache.None? ==> !r.1
  {
    if a.offset == b.offset then (thisCache, true)
    else
      var built := Memo(thisCache, BuiltCache(m, a));
      (built, ScrollDecision(drawWidth, coeff, a, b, built, otherCache))
  }

  /** Once both caches exist, the scroll check gives the same verdict whichever item asks. */
  lemma ScrollDecisionSymmetric(drawWidth: int, coeff: real, a: Attrs, b: Attrs, ca: Bitmap, cb: Bitmap)
    requires ScrollDefined(drawWidth, coeff, a, b)
    ensures ScrollDecision(drawWidth, coeff, a, b, Some(ca), Some(cb)) ==
            ScrollDecision(drawWidth, coeff, b, a, Some(cb), Some(ca))
  {
  }

  /**
   * What the catch-up test means: the leader's tail is inside the screen when the chaser
   * appears, the chaser is faster, and at its speed advantage it closes the gap within the
   * time it takes to cross the screen.
   */
  lemma CatchUpMeaning(drawWidth: int, leaderSpeed: real, leaderWidth: int, lag: int, chaserSpeed: real)
    requires 0.0 < chaserSpeed && chaserSpeed != leaderSpeed
    ensures var gap := leaderSpeed * lag as real - leaderWidth as real;
      CatchUp(drawWidth, leaderSpeed, leaderWidth, lag, chaserSpeed) <==>
        gap > 0.0 && chaserSpeed > leaderSpeed &&
        gap * chaserSpeed <= drawWidth as real * (chaserSpeed - leaderSpeed)
  {
    var gap := leaderSpeed * lag as real - leaderWidth as real;
    var r := chaserSpeed - leaderSpeed;
    if gap > 0.0 {
      DivSign(gap, r);
      if r > 0.0 {
        CrossMul(gap, r, drawWidth as real, chaserSpeed);
      }
    }
  }

  lemma DivSign(x: real, r: real)
    requires x > 0.0 && r != 0.0
    ensures r > 0.0 ==> x / r > 0.0
    ensures r < 0.0 ==> x / r < 0.0
  {
    assert x / r * r == x;
  }

  lemma CrossMul(x: real, r: real, w: real, s: real)
    requires r > 0.0 && s > 0.0
    ensures x / r <= w / s <==> x * s <= w * r
  {
    var t, u := x / r, w / s;
    assert t * r == x;
    assert u * s == w;
    assert x * s == t * (r * s);
    assert w * r == u * (r * s);
    if t <= u {
      assert t * (r * s) <= u * (r * s);
    } else {
      assert t * (r * s) > u * (r * s);
    }
  }

  /** A chaser that is not faster than the leader never catches up with it. */
  lemma SlowerNeverCatchesUp(drawWidth: int, leaderSpeed: real, leaderWidth: int, lag: int, chaserSpeed: real)
    requires 0.0 < chaserSpeed < leaderSpeed
    ensures !CatchUp(drawWidth, leaderSpeed, leaderWidth, lag, chaserSpeed)
  {
    CatchUpMeaning(drawWidth, leaderSpeed, leaderWidth, lag, chaserSpeed);
  }

  /**
   * `checkScrollLineDanmakuHit`. The other item's cache is already known not to be missing at
   * the point where the source asks to build it, so that build never runs.
   */
  method CheckScrollHit(d: Danmaku, other: Danmaku, m: Measure, drawWidth: int, coeff: real)
      returns (hit: bool)
    requires ScrollDefined(drawWidth, coeff, d.Snapshot(), other.Snapshot()) && Buildable(d.Snapshot())
    modifies d`cache
    ensures (d.cache, hit) ==
      ScrollHit(m, drawWidth, coeff, d.Snapshot(), other.Snapshot(), old(d.cache), old(other.cache))
  {
    if d.offset == other.offset {
      return true;
    }
    if d.cache.None? {
      OnBuildCache(d, m);
    }
    if other.cache.None? {
      return false;
    }
    // Building the other item's cache at this point, as the check also does, can no longer happen.
    assert d.Snapshot().offset != other.Snapshot().offset;
    hit := ScrollDecision(drawWidth, coeff, d.Snapshot(), other.Snapshot(), d.cache, other.cache);
  }

  // ----- willHit -----

  /**
   * `willHit` of the asking item's class: the scroll check for right-to-left and left-to-right
   * items, the static check for top and bottom items.
   */
  function WillHitOutcome(m: Measure, drawWidth: int, coeff: real, a: Attrs, b: Attrs,
                          thisCache: Option<Bitmap>, otherCache: Option<Bitmap>): (r: (Option<Bitmap>, bool))
    requires IsLineKind(a.kind) && (IsScrollKind(a.kind) ==> ScrollDefined(drawWidth, coeff, a, b) && Buildable(a))
    ensures IsScrollKind(a.kind) ==> r == ScrollHit(m, drawWidth, coeff, a, b, thisCache, otherCache)
    ensures !IsScrollKind(a.kind) ==> r == (thisCache, StaticHit(coeff, a, b))
  {
    if IsScrollKind(a.kind) then ScrollHit(m, drawWidth, coeff, a, b, thisCache, otherCache)
    else (thisCache, StaticHit(coeff, a, b))
  }

  method WillHit(d: Danmaku, other: Danmaku, m: Measure, drawWidth: int, coeff: real) returns (hit: bool)
    requires IsLineKind(d.kind)
    requires IsScrollKind(d.kind) ==> ScrollDefined(drawWidth, coeff, d.Snapshot(), other.Snapshot()) && Buildable(d.Snapshot())
    modifies d`cache
    ensures (d.cache, hit) ==
      WillHitOutcome(m, drawWidth, coeff, d.Snapshot(), other.Snapshot(), old(d.cache), old(other.cache))
  {
    if IsScrollKind(d.kind) {
      hit := CheckScrollHit(d, other, m, drawWidth, coeff);
    } else {
      hit := StaticHit(coeff, d.Snapshot(), other.Snapshot());
    }
  }

  /** A second check with the cache the first one left gives the same verdict and cache. */
  lemma WillHitStable(m: Measure, drawWidth: int, coeff: real, a: Attrs, b: Attrs,
                      thisCache: Option<Bitmap>, otherCache: Option<Bitmap>)
    requires IsLineKind(a.kind) && (IsScrollKind(a.kind) ==> ScrollDefined(drawWidth, coeff, a, b) && Buildable(a))
    ensures var r := WillHitOutcome(m, drawWidth, coeff, a, b, thisCache, otherCache);
      WillHitOutcome(m, drawWidth, coeff, a, b, r.0, otherCache) == r
  {
  }
}
