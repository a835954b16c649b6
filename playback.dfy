/**
 * The view's playback state and its item list, as values: pausing, resuming, seeking, the
 * ticker that advances the clock, the one-frame redraw request, and the list operations.
 * The view class in module View changes its fields exactly as these functions say.
 */
module Playback {
  import opened Common

  const NANOS_PER_MILLI: int := 1_000_000
  const LONG_MAX: int := LONG_MIN + LONG_RANGE - 1

  /** `isPaused`, `isOnceResume` and `conductedTimeNs` (a `Long`). */
  datatype Clock = Clock(isPaused: bool, isOnceResume: bool, conductedTimeNs: int)

  predicate IsLong(x: int)
  {
    LONG_MIN <= x <= LONG_MAX
  }

  /** `conductedTimeMs`: the nanosecond count divided by a million, rounding toward zero. */
  function Millis(ns: int): int
  {
    TruncDiv(ns, NANOS_PER_MILLI)
  }

  /** A millisecond time as nanoseconds, wrapped to a `Long` as Kotlin's multiplication does. */
  function Nanos(ms: int): int
  {
    WrapLong(ms * NANOS_PER_MILLI)
  }

  /** Converting milliseconds to nanoseconds and back loses nothing while the product fits. */
  lemma MillisOfNanos(ms: int)
    requires IsLong(ms * NANOS_PER_MILLI)
    ensures Millis(Nanos(ms)) == ms
  {
    var m := NANOS_PER_MILLI;
    var n := ms * m;
    var q := TruncDiv(n, m);
    assert (ms + 1) * m == n + m;
    assert (ms - 1) * m == n - m;
    if 0 <= ms {
      MulRight(0, ms, m);
      QuotientUnique(n, m, q, ms);
    } else {
      MulRight(ms, -1, m);
      assert (q - 1) * m <= n - 1 < q * m;
      QuotientUnique(n - 1, m, q - 1, ms - 1);
    }
  }

  /** Just past the `Long` range the multiplication wraps, and the time read back is not the one set. */
  lemma NanosWrap()
    ensures var ms := LONG_MAX / NANOS_PER_MILLI + 1; Millis(Nanos(ms)) != ms
  {
    var ms := LONG_MAX / NANOS_PER_MILLI + 1;
    assert ms == 9223372036855;
    assert Nanos(ms) == ms * NANOS_PER_MILLI - LONG_RANGE;
    assert Nanos(ms) < 0;
  }

  // ----- the clock operations -----

  function Pause(c: Clock): Clock { c.(isPaused := true) }

  /** `resume`: a paused clock starts a ticker, a running one is left alone. */
  function Resume(c: Clock): Clock { c.(isPaused := false) }

  /** Whether `resume` launches a new ticker for this state. */
  predicate LaunchesTicker(c: Clock) { c.isPaused }

  function Start(c: Clock, offsetMs: int): Clock
  {
    Resume(c.(conductedTimeNs := Nanos(offsetMs)))
  }

  function SeekTo(c: Clock, timeMs: int): Clock
  {
    c.(conductedTimeNs := Nanos(timeMs), isOnceResume := true)
  }

  /** After `parse`: paused at time 0, with one frame requested. */
  function Parsed(): Clock
  {
    Clock(true, true, 0)
  }

  function DrawOnce(c: Clock): Clock { c.(isOnceResume := true) }

  /** The end of one render-loop round: a one-frame request is used up. */
  function FrameDone(c: Clock): Clock { c.(isOnceResume := false) }

  /** The render loop idles after a frame exactly when paused with no frame requested. */
  predicate Idles(c: Clock) { c.isPaused && !c.isOnceResume }

  /** `Float.toLong`: truncation, saturating at the ends of the `Long` range. */
  function SaturateLong(x: real): (r: int)
    ensures IsLong(r)
  {
    var t := Trunc(x);
    if t < LONG_MIN then LONG_MIN else if t > LONG_MAX then LONG_MAX else t
  }

  /**
   * One round of the ticker: the elapsed nanoseconds scaled by the speed, converted to a
   * `Long` and added with wrap-around.
   */
  function Tick(c: Clock, elapsedNs: int, speed: real): Clock
  {
    c.(conductedTimeNs := WrapLong(c.conductedTimeNs + SaturateLong(elapsedNs as real * speed)))
  }

  // ----- what the operations promise -----

  /** Seeking, or starting at an offset, reads back as that time in milliseconds. */
  lemma SeekThenRead(c: Clock, t: int)
    requires IsLong(t * NANOS_PER_MILLI)
    ensures Millis(SeekTo(c, t).conductedTimeNs) == t
    ensures Millis(Start(c, t).conductedTimeNs) == t
    ensures !Start(c, t).isPaused && SeekTo(c, t).isOnceResume
  {
    MillisOfNanos(t);
  }

  /** A second `resume` launches no second ticker, and `pause` twice is `pause` once. */
  lemma ResumeAndPauseSettle(c: Clock)
    ensures !LaunchesTicker(Resume(c)) && Resume(Resume(c)) == Resume(c)
    ensures Pause(Pause(c)) == Pause(c) && LaunchesTicker(Pause(c))
    ensures Pause(c).conductedTimeNs == c.conductedTimeNs && Resume(c).conductedTimeNs == c.conductedTimeNs
  {
  }

  /** `drawOnce` on a paused view lets exactly one more frame through. */
  lemma DrawOnceDrawsOneFrame(c: Clock)
    requires c.isPaused
    ensures !Idles(DrawOnce(c)) && Idles(FrameDone(DrawOnce(c)))
  {
  }

  /**
   * With a non-negative speed and elapsed time, a tick never moves the clock back unless the
   * sum overflows, and at speed 1 it advances by exactly the elapsed time.
   */
  lemma TickAdvances(c: Clock, elapsedNs: int, speed: real)
    requires IsLong(c.conductedTimeNs) && 0 <= elapsedNs && 0.0 <= speed
    requires c.conductedTimeNs + SaturateLong(elapsedNs as real * speed) <= LONG_MAX
    ensures c.conductedTimeNs <= Tick(c, elapsedNs, speed).conductedTimeNs
    ensures speed == 1.0 && elapsedNs <= LONG_MAX ==>
      Tick(c, elapsedNs, speed).conductedTimeNs == c.conductedTimeNs + elapsedNs
  {
    var x := elapsedNs as real * speed;
    assert 0.0 <= x by {
      MulNonneg(elapsedNs as real, speed);
    }
    if speed == 1.0 {
      assert x == elapsedNs as real;
      assert Trunc(x) == elapsedNs;
    }
  }

  lemma MulNonneg(x: real, y: real)
    requires 0.0 <= x && 0.0 <= y
    ensures 0.0 <= x * y
  {
  }

  // ----- the item list -----

  /** `MutableList.remove`: drops the first occurrence, if any. */
  function RemoveFirst<T(==)>(s: seq<T>, x: T): seq<T>
    decreases |s|
  {
    if |s| == 0 then s
    else if s[0] == x then s[1..]
    else [s[0]] + RemoveFirst(s[1..], x)
  }

  /** The index of the first occurrence. */
  function IndexOf<T(==)>(s: seq<T>, x: T): (i: nat)
    requires x in s
    ensures i < |s| && s[i] == x && x !in s[..i]
    decreases |s|
  {
    if s[0] == x then 0 else 1 + IndexOf(s[1..], x)
  }

  /** The first occurrence is at the index where the item appears with no copy before it. */
  lemma {:induction false} IndexIsFirst<T>(s: seq<T>, x: T, i: int)
    requires 0 <= i < |s| && s[i] == x && x !in s[..i]
    ensures x in s && IndexOf(s, x) == i
    decreases i
  {
    if i > 0 {
      assert s[0] in s[..i];
      assert s[1..][..i - 1] == s[1..i];
      assert forall y :: y in s[1..i] ==> y in s[..i];
      IndexIsFirst(s[1..], x, i - 1);
    }
  }

  /** Removing an item that is not in the list leaves the list as it is. */
  lemma {:induction false} RemoveAbsent<T>(s: seq<T>, x: T)
    requires x !in s
    ensures RemoveFirst(s, x) == s
    decreases |s|
  {
    if |s| > 0 {
      assert x !in s[1..];
      RemoveAbsent(s[1..], x);
    }
  }

  /** Removing drops the first occurrence and keeps every other item in order. */
  lemma {:induction false} RemoveFirstAt<T>(s: seq<T>, x: T)
    requires x in s
    ensures RemoveFirst(s, x) == s[..IndexOf(s, x)] + s[IndexOf(s, x) + 1..]
    decreases |s|
  {
    if s[0] != x {
      var t := s[1..];
      assert x in t;
      RemoveFirstAt(t, x);
      var i := IndexOf(t, x);
      assert IndexOf(s, x) == i + 1;
      assert s[..i + 1] == [s[0]] + t[..i];
      assert s[i + 2..] == t[i + 1..];
    }
  }

  /** Removing takes exactly one copy of the item out of the list, and none when it is absent. */
  lemma {:induction false} RemoveFirstRemovesOne<T>(s: seq<T>, x: T)
    ensures multiset(RemoveFirst(s, x)) == multiset(s) - multiset{x}
    decreases |s|
  {
    if |s| > 0 {
      assert s == [s[0]] + s[1..];
      if s[0] != x {
        RemoveFirstRemovesOne(s[1..], x);
        var rest := multiset(s[1..]);
        assert multiset(RemoveFirst(s, x)) == multiset{s[0]} + (rest - multiset{x});
        assert multiset{s[0]} + (rest - multiset{x}) == (multiset{s[0]} + rest) - multiset{x};
      }
    }
  }
}
