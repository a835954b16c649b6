/**
 * BiliSpecialDanmaku: a multi-line item placed in the 682x438 coordinate space of the
 * bilibili player, moving in a straight line from a begin point to an end point while its
 * alpha fades between two values. `setLinePathData` also splits a poly-line into timed
 * segments.
 */
module BiliSpecial {
  import opened Common
  import opened Items
  import opened Utils
  import SpecialDanmaku

  const BILI_PLAYER_WIDTH: real := 682.0
  const BILI_PLAYER_HEIGHT: real := 438.0

  // ----- alpha and position at a progress -----

  /** The paint alpha at a progress: the begin alpha plus the truncated share of the change. */
  function AlphaAt(beginAlpha: int, endAlpha: int, progress: real): int
  {
    beginAlpha + Trunc((endAlpha - beginAlpha) as real * progress)
  }

  /** The alpha starts at `beginAlpha`, ends at `endAlpha` and never leaves the range between. */
  lemma AlphaRange(beginAlpha: int, endAlpha: int, progress: real)
    requires 0.0 <= progress <= 1.0
    ensures AlphaAt(beginAlpha, endAlpha, 0.0) == beginAlpha
    ensures AlphaAt(beginAlpha, endAlpha, 1.0) == endAlpha
    ensures Min(beginAlpha, endAlpha) <= AlphaAt(beginAlpha, endAlpha, progress) <= Max(beginAlpha, endAlpha)
  {
    var delta := endAlpha - beginAlpha;
    SpecialDanmaku.TruncOfInt(delta);
    SpecialDanmaku.TruncOfInt(0);
    if delta >= 0 {
      SpecialDanmaku.ScaleInUnit(delta as real, progress);
    } else {
      SpecialDanmaku.ScaleInUnit(-delta as real, progress);
      assert (-delta as real) * progress == -(delta as real * progress);
    }
  }

  /** The point in player space at a progress: begin plus the displacement times the progress. */
  function PositionAt(motion: BiliMotion, progress: real): Point
  {
    Point(motion.beginX + (motion.endX - motion.beginX) * progress,
          motion.beginY + (motion.endY - motion.beginY) * progress)
  }

  /**
   * The item starts at the begin point, ends at the end point, and in between stays within
   * the box the two points span.
   */
  lemma PositionOnSegment(motion: BiliMotion, progress: real)
    requires 0.0 <= progress <= 1.0
    ensures PositionAt(motion, 0.0) == Point(motion.beginX, motion.beginY)
    ensures PositionAt(motion, 1.0) == Point(motion.endX, motion.endY)
    ensures SpecialDanmaku.Between(PositionAt(motion, progress).x, motion.beginX, motion.endX)
    ensures SpecialDanmaku.Between(PositionAt(motion, progress).y, motion.beginY, motion.endY)
  {
    SpecialDanmaku.LerpBetween(motion.beginX, motion.endX, progress);
    SpecialDanmaku.LerpBetween(motion.beginY, motion.endY, progress);
  }

  /** `getDrawXY`: scales a point of the player's 682x438 space to the drawing surface. */
  function DrawXY(p: Point, drawWidth: int, drawHeight: int): Point
  {
    Point(p.x / BILI_PLAYER_WIDTH * drawWidth as real, p.y / BILI_PLAYER_HEIGHT * drawHeight as real)
  }

  /**
   * The player's corners land on the surface's corners, and the scaling keeps the order of
   * points on a surface of non-negative size.
   */
  lemma DrawXYScales(p: Point, q: Point, drawWidth: int, drawHeight: int)
    requires 0 <= drawWidth && 0 <= drawHeight
    ensures DrawXY(Point(0.0, 0.0), drawWidth, drawHeight) == Point(0.0, 0.0)
    ensures DrawXY(Point(BILI_PLAYER_WIDTH, BILI_PLAYER_HEIGHT), drawWidth, drawHeight) ==
            Point(drawWidth as real, drawHeight as real)
    ensures p.x <= q.x ==> DrawXY(p, drawWidth, drawHeight).x <= DrawXY(q, drawWidth, drawHeight).x
    ensures p.y <= q.y ==> DrawXY(p, drawWidth, drawHeight).y <= DrawXY(q, drawWidth, drawHeight).y
  {
    if p.x <= q.x {
      SpecialDanmaku.MulNonneg((q.x - p.x) / BILI_PLAYER_WIDTH, drawWidth as real);
      assert q.x / BILI_PLAYER_WIDTH * drawWidth as real - p.x / BILI_PLAYER_WIDTH * drawWidth as real ==
             (q.x - p.x) / BILI_PLAYER_WIDTH * drawWidth as real;
    }
    if p.y <= q.y {
      SpecialDanmaku.MulNonneg((q.y - p.y) / BILI_PLAYER_HEIGHT, drawHeight as real);
      assert q.y / BILI_PLAYER_HEIGHT * drawHeight as real - p.y / BILI_PLAYER_HEIGHT * drawHeight as real ==
             (q.y - p.y) / BILI_PLAYER_HEIGHT * drawHeight as real;
    }
  }

  // ----- the drawn block -----

  /**
   * The block `onDraw` measures: the widest line and the stacked line heights, each grown by
   * a third of the text size. Unlike the cached items there is no guard against a zero side.
   */
  function BlockSize(m: Measure, a: Attrs): (s: (nat, nat))
    requires a.textSize >= 0.0
    ensures var size := PaintTextSize(a, m.textSizeCoefficient);
      var texts := SpecialDanmaku.TextLines(a);
      && (forall i :: 0 <= i < |texts| ==> m.bounds(texts[i], size).width < s.0 + 1)
      && (forall i :: 0 <= i < |texts| ==> m.bounds(texts[i], size).height < s.1 + 1)
      && SpecialDanmaku.Pad(a.textSize) <= s.0 && SpecialDanmaku.Pad(a.textSize) <= s.1
  {
    var size := PaintTextSize(a, m.textSizeCoefficient);
    var texts := SpecialDanmaku.TextLines(a);
    var pad := SpecialDanmaku.Pad(a.textSize);
    (SpecialDanmaku.Widest(m.bounds, size, texts) + pad, SpecialDanmaku.StackedHeight(m.bounds, size, texts) + pad)
  }

  /**
   * The rect `onDraw` returns: the block at the scaled position when the item is not
   * rotated about y; otherwise the empty rect mapped through the rotation and the translation,
   * which collapses to the scaled position.
   */
  function BiliRect(m: Measure, a: Attrs, progress: real, drawWidth: int, drawHeight: int): Rect
    requires a.textSize >= 0.0
  {
    var at := DrawXY(PositionAt(a.motion, progress), drawWidth, drawHeight);
    if a.motion.rotationY == 0.0 then
      var (width, height) := BlockSize(m, a);
      RectAt(at.x, at.y, width as real, height as real)
    else Rect(at.x, at.y, at.x, at.y)
  }

  /**
   * The drawn rect starts at the scaled begin point and ends at the scaled end point; an
   * unrotated item's rect has the block's size, a rotated one's is empty.
   */
  lemma BiliRectPath(m: Measure, a: Attrs, drawWidth: int, drawHeight: int)
    requires a.textSize >= 0.0
    ensures var r := BiliRect(m, a, 0.0, drawWidth, drawHeight);
      var begin := DrawXY(Point(a.motion.beginX, a.motion.beginY), drawWidth, drawHeight);
      r.Rect? && r.left == begin.x && r.top == begin.y
    ensures var r := BiliRect(m, a, 1.0, drawWidth, drawHeight);
      var end := DrawXY(Point(a.motion.endX, a.motion.endY), drawWidth, drawHeight);
      r.Rect? && r.left == end.x && r.top == end.y
    ensures var r := BiliRect(m, a, 0.0, drawWidth, drawHeight);
      a.motion.rotationY == 0.0 ==>
        r.right - r.left == BlockSize(m, a).0 as real && r.bottom - r.top == BlockSize(m, a).1 as real
    ensures var r := BiliRect(m, a, 0.0, drawWidth, drawHeight);
      a.motion.rotationY != 0.0 ==> r.right == r.left && r.bottom == r.top
  {
    assert PositionAt(a.motion, 0.0) == Point(a.motion.beginX, a.motion.beginY);
    assert PositionAt(a.motion, 1.0) == Point(a.motion.endX, a.motion.endY);
  }

  // ----- text -----

  /** `fillText`: split the text into lines at each two-character "/n", when it has one. */
  method FillText(d: Danmaku)
    modifies d`lines
    ensures |d.text| > 0 && Contains(d.text, "/n") ==> d.lines == Some(Split(d.text, "/n"))
    ensures !(|d.text| > 0 && Contains(d.text, "/n")) ==> d.lines == old(d.lines)
  {
    if |d.text| > 0 && Contains(d.text, "/n") {
      d.lines := Some(Split(d.text, "/n"));
    }
  }

  /**
   * The lines `fillText` stores are more than one and join back into the text; a text whose
   * only line breaks are real newline characters is not split.
   */
  lemma FillTextLines(text: string)
    requires |text| > 0 && Contains(text, "/n")
    ensures |Split(text, "/n")| > 1
    ensures Join(Split(text, "/n"), "/n") == text
  {
    SplitManyIffContains(text, "/n");
    JoinSplit(text, "/n");
  }

  // ----- setLinePathData -----

  /** The segment from point i to point i + 1 as `setPoints` leaves a new `LinePath`. */
  function Joined(points: seq<Point>, i: int): Segment
    requires 0 <= i < |points| - 1
  {
    Segment(Some(points[i]), Some(points[i + 1]), 0, 0, 0,
            points[i + 1].x - points[i].x, points[i + 1].y - points[i].y)
  }

  /** Each segment's `distance` (end to begin), measured by `dist`. */
  function Distances(points: seq<Point>, dist: (Point, Point) -> real): (ds: seq<real>)
    requires |points| >= 1
    ensures |ds| == |points| - 1
  {
    seq(|points| - 1, i requires 0 <= i < |points| - 1 => dist(points[i + 1], points[i]))
  }

  /** The sum of the first `n` lengths. */
  function Sum(xs: seq<real>, n: nat): real
    requires n <= |xs|
  {
    if n == 0 then 0.0 else Sum(xs, n - 1) + xs[n - 1]
  }

  /** The sum of the first `n` durations. */
  function IntSum(xs: seq<int>, n: nat): int
    requires n <= |xs|
  {
    if n == 0 then 0 else IntSum(xs, n - 1) + xs[n - 1]
  }

  /**
   * A segment's share of `translationDuration`, in proportion to its length and truncated.
   * When the total length is 0 every length is 0 too, the float quotient is NaN, and NaN
   * converts to 0.
   */
  function SegmentDuration(distance: real, total: real, translationDuration: int): int
  {
    if total == 0.0 then 0 else Trunc(distance / total * translationDuration as real)
  }

  /** The segments' durations: each length's share of the total length. */
  function Durations(ds: seq<real>, translationDuration: int): (durs: seq<int>)
    ensures |durs| == |ds|
  {
    Shares(ds, Sum(ds, |ds|), translationDuration)
  }

  /** Each length's share of `translationDuration` out of `total`, in order. */
  function Shares(ds: seq<real>, total: real, translationDuration: int): (durs: seq<int>)
    ensures |durs| == |ds|
    decreases |ds|
  {
    if |ds| == 0 then []
    else [SegmentDuration(ds[0], total, translationDuration)] + Shares(ds[1..], total, translationDuration)
  }

  lemma {:induction false} ShareAt(ds: seq<real>, total: real, translationDuration: int, i: int)
    requires 0 <= i < |ds|
    ensures Shares(ds, total, translationDuration)[i] == SegmentDuration(ds[i], total, translationDuration)
    decreases |ds|
  {
    if i > 0 {
      ShareAt(ds[1..], total, translationDuration, i - 1);
    }
  }

  /** The segments `setLinePathData` builds for a poly-line, with their times filled in. */
  function Timeline(points: seq<Point>, dist: (Point, Point) -> real, translationDuration: int): (tl: seq<Segment>)
    requires |points| >= 1
    ensures |tl| == |points| - 1
  {
    TimelineOf(points, Durations(Distances(points, dist), translationDuration))
  }

  /** Segment i joins point i to point i + 1, lasts `durs[i]` and starts after the ones before it. */
  function TimelineOf(points: seq<Point>, durs: seq<int>): (tl: seq<Segment>)
    requires |points| >= 1 && |durs| == |points| - 1
    ensures |tl| == |points| - 1
  {
    seq(|points| - 1, i requires 0 <= i < |points| - 1 =>
      Joined(points, i).(duration := durs[i], beginTime := IntSum(durs, i), endTime := IntSum(durs, i + 1)))
  }

  /**
   * Segment i joins point i to point i + 1; the first begins at time 0, each later one begins
   * when the previous one ends, and each ends its duration after it begins.
   */
  predicate Chained(points: seq<Point>, tl: seq<Segment>)
    requires |tl| == |points| - 1 >= 1
  {
    && tl[0].beginTime == 0
    && (forall i :: 0 <= i < |tl| - 1 ==> tl[i + 1].beginTime == tl[i].endTime)
    && (forall i :: 0 <= i < |tl| ==> tl[i].endTime == tl[i].beginTime + tl[i].duration)
    && (forall i :: 0 <= i < |tl| ==>
          tl[i].pBegin == Some(points[i]) && tl[i].pEnd == Some(points[i + 1]) &&
          tl[i].deltaX == points[i + 1].x - points[i].x && tl[i].deltaY == points[i + 1].y - points[i].y)
  }

  /** The timeline `setLinePathData` builds is chained, whatever the lengths. */
  lemma TimelineChains(points: seq<Point>, dist: (Point, Point) -> real, translationDuration: int)
    requires |points| >= 2
    ensures Chained(points, Timeline(points, dist, translationDuration))
  {
    ChainsOf(points, Durations(Distances(points, dist), translationDuration));
  }

  /** Any durations give a chained timeline. */
  lemma ChainsOf(points: seq<Point>, durs: seq<int>)
    requires |points| >= 2 && |durs| == |points| - 1
    ensures Chained(points, TimelineOf(points, durs))
  {
    LinksOf(points, durs);
    FieldsOf(points, durs);
  }

  /** Consecutive segments of any timeline meet in time. */
  lemma LinksOf(points: seq<Point>, durs: seq<int>)
    requires |points| >= 2 && |durs| == |points| - 1
    ensures var tl := TimelineOf(points, durs);
      tl[0].beginTime == 0 && forall i :: 0 <= i < |tl| - 1 ==> tl[i + 1].beginTime == tl[i].endTime
  {
    SegmentAt(points, durs, 0);
    forall i | 0 <= i < |durs| - 1
      ensures TimelineOf(points, durs)[i + 1].beginTime == TimelineOf(points, durs)[i].endTime
    {
      SegmentAt(points, durs, i);
      SegmentAt(points, durs, i + 1);
    }
  }

  /** Every segment of any timeline joins its two points and ends its duration after it begins. */
  lemma FieldsOf(points: seq<Point>, durs: seq<int>)
    requires |points| >= 2 && |durs| == |points| - 1
    ensures var tl := TimelineOf(points, durs);
      forall i :: 0 <= i < |tl| ==>
        && tl[i].duration == durs[i] && tl[i].endTime == tl[i].beginTime + tl[i].duration
        && tl[i].pBegin == Some(points[i]) && tl[i].pEnd == Some(points[i + 1])
        && tl[i].deltaX == points[i + 1].x - points[i].x && tl[i].deltaY == points[i + 1].y - points[i].y
  {
    forall i | 0 <= i < |durs|
      ensures var sg := TimelineOf(points, durs)[i];
        && sg.duration == durs[i] && sg.endTime == sg.beginTime + sg.duration
        && sg.pBegin == Some(points[i]) && sg.pEnd == Some(points[i + 1])
        && sg.deltaX == points[i + 1].x - points[i].x && sg.deltaY == points[i + 1].y - points[i].y
    {
      SegmentAt(points, durs, i);
    }
  }

  /** One entry of `TimelineOf`, field by field. */
  lemma SegmentAt(points: seq<Point>, durs: seq<int>, i: int)
    requires |points| >= 1 && |durs| == |points| - 1 && 0 <= i < |durs|
    ensures TimelineOf(points, durs)[i] ==
      Segment(Some(points[i]), Some(points[i + 1]), durs[i], IntSum(durs, i), IntSum(durs, i) + durs[i],
              points[i + 1].x - points[i].x, points[i + 1].y - points[i].y)
  {
  }

  lemma {:induction false} SumNonneg(xs: seq<real>, n: nat)
    requires n <= |xs|
    requires forall i :: 0 <= i < |xs| ==> 0.0 <= xs[i]
    ensures 0.0 <= Sum(xs, n)
  {
    if n > 0 {
      SumNonneg(xs, n - 1);
    }
  }

  lemma {:induction false} ZeroSum(durs: seq<int>, n: nat)
    requires n <= |durs|
    requires forall i :: 0 <= i < |durs| ==> durs[i] == 0
    ensures IntSum(durs, n) == 0
  {
    if n > 0 {
      ZeroSum(durs, n - 1);
    }
  }

  /** Integers each between 0 and a scaled length sum to at most the scaled total length. */
  lemma {:induction false} SumBelowScaled(durs: seq<int>, ds: seq<real>, scale: real, n: nat)
    requires |durs| == |ds| && n <= |ds|
    requires forall i :: 0 <= i < |ds| ==> 0 <= durs[i] && durs[i] as real <= ds[i] * scale
    ensures 0 <= IntSum(durs, n) && IntSum(durs, n) as real <= Sum(ds, n) * scale
  {
    if n > 0 {
      SumBelowScaled(durs, ds, scale, n - 1);
      AddBelow(IntSum(durs, n - 1), durs[n - 1], Sum(ds, n - 1), ds[n - 1], scale);
    }
  }

  /** Each segment's duration lies between 0 and its exact share. */
  lemma SharesBelow(ds: seq<real>, total: real, translationDuration: int)
    requires 0 <= translationDuration && 0.0 < total
    requires forall i :: 0 <= i < |ds| ==> 0.0 <= ds[i]
    ensures var durs := Shares(ds, total, translationDuration);
      forall i :: 0 <= i < |ds| ==>
        0 <= durs[i] && durs[i] as real <= ds[i] * (translationDuration as real / total)
  {
    forall i | 0 <= i < |ds|
      ensures var durs := Shares(ds, total, translationDuration);
        0 <= durs[i] && durs[i] as real <= ds[i] * (translationDuration as real / total)
    {
      ShareAt(ds, total, translationDuration, i);
      DurationBelowShare(ds[i], total, translationDuration);
    }
  }

  /** When the lengths add up to 0, every duration is 0. */
  lemma ZeroDurations(ds: seq<real>, translationDuration: int)
    requires Sum(ds, |ds|) == 0.0
    ensures forall i :: 0 <= i < |ds| ==> Durations(ds, translationDuration)[i] == 0
  {
    forall i | 0 <= i < |ds|
      ensures Durations(ds, translationDuration)[i] == 0
    {
      ShareAt(ds, 0.0, translationDuration, i);
    }
  }

  /** Durations each below their scaled share add up to at most the whole duration. */
  lemma SharesWithin(durs: seq<int>, ds: seq<real>, translationDuration: int)
    requires |durs| == |ds| && 0 <= translationDuration && 0.0 < Sum(ds, |ds|)
    requires forall i :: 0 <= i < |ds| ==>
      0 <= durs[i] && durs[i] as real <= ds[i] * (translationDuration as real / Sum(ds, |ds|))
    ensures 0 <= IntSum(durs, |durs|) <= translationDuration
  {
    var total := Sum(ds, |ds|);
    SumBelowScaled(durs, ds, translationDuration as real / total, |ds|);
    Cancel(total, translationDuration as real);
  }

  lemma AddBelow(a: int, d: int, s: real, x: real, scale: real)
    requires a as real <= s * scale && d as real <= x * scale
    ensures (a + d) as real <= (s + x) * scale
  {
    assert (s + x) * scale == s * scale + x * scale;
  }

  /** One segment's duration lies between 0 and its exact share of the total duration. */
  lemma DurationBelowShare(x: real, total: real, translationDuration: int)
    requires 0.0 <= x && 0.0 < total && 0 <= translationDuration
    ensures var d := SegmentDuration(x, total, translationDuration);
      0 <= d && d as real <= x * (translationDuration as real / total)
  {
    ScaleNonneg(total, translationDuration as real);
    SegmentDurationScaled(x, total, translationDuration);
    SpecialDanmaku.MulNonneg(x, translationDuration as real / total);
  }

  lemma ShareIsScaled(x: real, total: real, td: real)
    requires total != 0.0
    ensures x / total * td == x * (td / total)
  {
  }

  /** Non-negative lengths share a non-negative duration out into at most that duration. */
  lemma DurationsWithin(ds: seq<real>, translationDuration: int)
    requires 0 <= translationDuration
    requires forall i :: 0 <= i < |ds| ==> 0.0 <= ds[i]
    ensures var durs := Durations(ds, translationDuration); 0 <= IntSum(durs, |durs|) <= translationDuration
  {
    var durs := Durations(ds, translationDuration);
    SumNonneg(ds, |ds|);
    if Sum(ds, |ds|) == 0.0 {
      ZeroDurations(ds, translationDuration);
      ZeroSum(durs, |durs|);
    } else {
      SharesBelow(ds, Sum(ds, |ds|), translationDuration);
      SharesWithin(durs, ds, translationDuration);
    }
  }

  lemma SegmentDurationScaled(x: real, total: real, translationDuration: int)
    requires total != 0.0
    ensures SegmentDuration(x, total, translationDuration) == Trunc(x * (translationDuration as real / total))
  {
    var td := translationDuration as real;
    ShareIsScaled(x, total, td);
    TruncOfEqual(x / total * td, x * (td / total));
  }

  lemma TruncOfEqual(x: real, y: real)
    requires x == y
    ensures Trunc(x) == Trunc(y)
  {
  }

  lemma ScaleNonneg(total: real, td: real)
    requires 0.0 < total && 0.0 <= td
    ensures 0.0 <= td / total
  {
  }

  lemma Cancel(total: real, td: real)
    requires total != 0.0
    ensures total * (td / total) == td
  {
  }

  /** With non-negative lengths and duration, the last segment ends no later than `translationDuration`. */
  lemma TimelineWithin(points: seq<Point>, dist: (Point, Point) -> real, translationDuration: int)
    requires |points| >= 2 && 0 <= translationDuration
    requires forall p, q :: 0.0 <= dist(p, q)
    ensures var tl := Timeline(points, dist, translationDuration);
      0 <= tl[|tl| - 1].endTime <= translationDuration
  {
    var ds := Distances(points, dist);
    forall i | 0 <= i < |ds|
      ensures 0.0 <= ds[i]
    {
      assert ds[i] == dist(points[i + 1], points[i]);
    }
    DurationsWithin(ds, translationDuration);
    SegmentAt(points, Durations(ds, translationDuration), |ds| - 1);
  }

  /** Each path segment is a fresh, distinct `LinePath` holding its entry of `tl`. */
  ghost predicate Holds(paths: array<LinePath?>, tl: seq<Segment>)
    reads paths, paths[..]
  {
    && paths.Length == |tl|
    && (forall i :: 0 <= i < paths.Length ==> paths[i] != null && paths[i].State() == tl[i])
    && (forall i, j :: 0 <= i < j < paths.Length ==> paths[i] != paths[j])
  }

  /**
   * `setLinePathData`. An empty point list makes the source fail on its first element before
   * anything is assigned: that is the `!ok` outcome. Otherwise the begin and end points are
   * set, and a list of two or more points gets a fresh array of timed segments.
   */
  method SetLinePathData(d: Danmaku, points: seq<Point>, dist: (Point, Point) -> real) returns (ok: bool)
    modifies d`beginX, d`beginY, d`endX, d`endY, d`linePaths
    ensures ok <==> |points| > 0
    ensures !ok ==> unchanged(d)
    ensures ok ==> && d.beginX == points[0].x && d.beginY == points[0].y
                   && d.endX == points[|points| - 1].x && d.endY == points[|points| - 1].y
    ensures |points| <= 1 ==> d.linePaths == old(d.linePaths)
    ensures |points| > 1 ==>
      && d.linePaths != null && fresh(d.linePaths)
      && (forall i :: 0 <= i < d.linePaths.Length ==> fresh(d.linePaths[i]))
      && Holds(d.linePaths, Timeline(points, dist, d.translationDuration))
  {
    if |points| == 0 {
      return false;
    }
    d.beginX, d.beginY := points[0].x, points[0].y;
    d.endX, d.endY := points[|points| - 1].x, points[|points| - 1].y;
    ok := true;
    if |points| > 1 {
      var paths := MakePaths(points);
      var total := TotalDistance(paths, points, dist);
      ChainTimes(paths, points, dist, total, d.translationDuration);
      d.linePaths := paths;
    }
  }

  /** One fresh `LinePath` per pair of neighbouring points. */
  method MakePaths(points: seq<Point>) returns (paths: array<LinePath?>)
    requires |points| > 1
    ensures fresh(paths) && paths.Length == |points| - 1
    ensures forall i :: 0 <= i < paths.Length ==>
      paths[i] != null && fresh(paths[i]) && paths[i].State() == Joined(points, i)
    ensures forall i, j :: 0 <= i < j < paths.Length ==> paths[i] != paths[j]
  {
    paths := new LinePath?[|points| - 1];
    for i := 0 to |points| - 1
      invariant forall j :: 0 <= j < i ==>
        paths[j] != null && fresh(paths[j]) && paths[j].State() == Joined(points, j)
      invariant forall j, k :: 0 <= j < k < i ==> paths[j] != paths[k]
    {
      var path := new LinePath();
      path.SetPoints(points[i], points[i + 1]);
      paths[i] := path;
    }
  }

  /** The sum of the segments' lengths, in array order. */
  method TotalDistance(paths: array<LinePath?>, ghost points: seq<Point>, dist: (Point, Point) -> real)
      returns (total: real)
    requires |points| > 1 && paths.Length == |points| - 1
    requires forall i :: 0 <= i < paths.Length ==> paths[i] != null && paths[i].State() == Joined(points, i)
    ensures var ds := Distances(points, dist); total == Sum(ds, |ds|)
  {
    ghost var ds := Distances(points, dist);
    total := 0.0;
    for k := 0 to paths.Length
      invariant total == Sum(ds, k)
    {
      var path := paths[k];
      total := total + dist(path.pEnd.value, path.pBegin.value);
    }
  }

  /** Gives each segment its duration and chains its begin time to the previous end time. */
  method ChainTimes(paths: array<LinePath?>, ghost points: seq<Point>, dist: (Point, Point) -> real,
                    total: real, translationDuration: int)
    requires |points| > 1 && paths.Length == |points| - 1
    requires forall i :: 0 <= i < paths.Length ==> paths[i] != null && paths[i].State() == Joined(points, i)
    requires forall i, j :: 0 <= i < j < paths.Length ==> paths[i] != paths[j]
    requires var ds := Distances(points, dist); total == Sum(ds, |ds|)
    modifies paths[..]
    ensures Holds(paths, Timeline(points, dist, translationDuration))
  {
    ghost var durs := Durations(Distances(points, dist), translationDuration);
    ghost var tl := TimelineOf(points, durs);
    var lastPath: LinePath? := null;
    for k := 0 to paths.Length
      invariant forall i :: 0 <= i < paths.Length ==> paths[i] != null
      invariant forall i, j :: 0 <= i < j < paths.Length ==> paths[i] != paths[j]
      invariant forall i :: 0 <= i < k ==> paths[i].State() == tl[i]
      invariant forall i :: k <= i < paths.Length ==> paths[i].State() == Joined(points, i)
      invariant k == 0 ==> lastPath == null
      invariant k > 0 ==> lastPath == paths[k - 1]
    {
      var path := paths[k];
      var duration := SegmentDuration(dist(path.pEnd.value, path.pBegin.value), total, translationDuration);
      DurationIndex(points, dist, translationDuration, k);
      StepOf(points, durs, k);
      TimeSegment(path, duration, if lastPath == null then 0 else lastPath.endTime);
      lastPath := path;
    }
  }

  /** Sets one segment's duration and start, and its end to the start plus the duration. */
  method TimeSegment(path: LinePath, duration: int, begin: int)
    modifies path
    ensures path.State() == old(path.State()).(duration := duration, beginTime := begin, endTime := begin + duration)
  {
    path.duration := duration;
    path.beginTime := begin;
    path.endTime := path.beginTime + path.duration;
  }

  /** Segment `k` of a timeline is the joined segment timed to start where segment `k - 1` ends. */
  lemma StepOf(points: seq<Point>, durs: seq<int>, k: int)
    requires |points| >= 1 && |durs| == |points| - 1 && 0 <= k < |durs|
    ensures var tl := TimelineOf(points, durs);
      var begin := if k == 0 then 0 else tl[k - 1].endTime;
      tl[k] == Joined(points, k).(duration := durs[k], beginTime := begin, endTime := begin + durs[k])
  {
    SegmentAt(points, durs, k);
    if k > 0 {
      SegmentAt(points, durs, k - 1);
    }
  }

  /** Entry `k` of the durations is the share of segment `k`'s length. */
  lemma DurationIndex(points: seq<Point>, dist: (Point, Point) -> real, translationDuration: int, k: int)
    requires 0 <= k < |points| - 1
    ensures var ds := Distances(points, dist);
      Durations(ds, translationDuration)[k] == SegmentDuration(dist(points[k + 1], points[k]), Sum(ds, |ds|), translationDuration)
  {
    var ds := Distances(points, dist);
    ShareAt(ds, Sum(ds, |ds|), translationDuration, k);
  }
}
