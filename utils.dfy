/** `Collection<DanmakuBlocker>.showBlock` from Utils.kt. */
module Utils {
  import opened Common
  import opened Items

  /**
   * `Paint.getTextBounds` for a paint made by `createPaint`: the bounds of a string drawn at a
   * given text size (the item's `textSize` times the config's `textSizeCoefficient`).
   */
  type TextBounds = (string, real) -> Bounds

  /** How a config measures text: the bounds function and the config's `textSizeCoefficient`. */
  datatype Measure = Measure(bounds: TextBounds, textSizeCoefficient: real)

  /** The text size `createPaint` gives the paint. */
  function PaintTextSize(a: Attrs, textSizeCoefficient: real): real
  {
    a.textSize * textSizeCoefficient
  }

  /** Some blocker in the collection blocks the item. */
  predicate Blocked(blockers: seq<Blocker>, a: Attrs)
  {
    exists i :: 0 <= i < |blockers| && blockers[i](a)
  }

  /**
   * Consults the blockers in order and stops at the first one that blocks. `consulted` is
   * the number of blockers asked.
   */
  method ShowBlock(blockers: seq<Blocker>, a: Attrs) returns (blocked: bool, ghost consulted: nat)
    ensures blocked == Blocked(blockers, a)
    ensures consulted <= |blockers|
    ensures forall i :: 0 <= i < consulted - 1 ==> !blockers[i](a)
    ensures blocked ==> 1 <= consulted && blockers[consulted - 1](a)
    ensures !blocked ==> consulted == |blockers|
  {
    for k := 0 to |blockers|
      invariant forall i :: 0 <= i < k ==> !blockers[i](a)
    {
      if blockers[k](a) {
        return true, k + 1;
      }
    }
    return false, |blockers|;
  }

  /** An empty collection never blocks. */
  lemma NoBlockersNeverBlock(a: Attrs)
    ensures !Blocked([], a)
  {
  }

  /** The verdict does not depend on the order (or repetition) of the blockers. */
  lemma {:induction false} BlockedIgnoresOrder(xs: seq<Blocker>, ys: seq<Blocker>, a: Attrs)
    requires forall b :: b in xs <==> b in ys
    ensures Blocked(xs, a) == Blocked(ys, a)
  {
    if Blocked(xs, a) {
      var i :| 0 <= i < |xs| && xs[i](a);
      assert xs[i] in ys;
      var j :| 0 <= j < |ys| && ys[j] == xs[i];
    }
    if Blocked(ys, a) {
      var j :| 0 <= j < |ys| && ys[j](a);
      assert ys[j] in xs;
      var i :| 0 <= i < |xs| && xs[i] == ys[j];
    }
  }

  /** Adding a blocker can only block more items. */
  lemma {:induction false} MoreBlockersBlockMore(xs: seq<Blocker>, b: Blocker, a: Attrs)
    ensures Blocked(xs + [b], a) == (Blocked(xs, a) || b(a))
  {
    if Blocked(xs, a) {
      var i :| 0 <= i < |xs| && xs[i](a);
      assert (xs + [b])[i] == xs[i];
    }
    if b(a) {
      assert (xs + [b])[|xs|] == b;
    }
    if Blocked(xs + [b], a) {
      var i :| 0 <= i < |xs + [b]| && (xs + [b])[i](a);
      if i < |xs| {
        assert xs[i] == (xs + [b])[i];
      }
    }
  }
}
