/**
 * The frame pass of `DanmakuView.drawDanmakus`/`drawDanmaku`, as functions over values:
 * which items are considered, which lane each gets, what is recorded as showing. The
 * imperative pass in module View is proved to compute exactly `DrawPass`.
 *
 * Item fields the pass only reads are given as `attrs`, and the items' caches, which the
 * pass may build, as `caches`; both are keyed by the item's identity.
 */
module Pass {
  import opened Common
  import opened Items
  import opened Utils
  import CacheExt
  import Collision
  import LineDanmaku
  import Drawing

  /** `ShowingDanmakuInfo`: a drawn item, the rect it reported, its lane before wrapping, its progress. */
  datatype Info = Info(danmaku: Danmaku, rect: Rect, line: int, progress: real)

  /** The config values and the surface one pass reads. */
  datatype Env = Env(surface: Drawing.Surface, coeff: real, allowCovering: bool, blockers: seq<Blocker>)

  /** The set being filled (`willShowDanmakus`) and every item's cache. */
  datatype PassState = PassState(infos: seq<Info>, caches: map<Danmaku, Option<Bitmap>>)

  /**
   * What the source relies on: a non-zero line height (Kotlin's integer division would throw),
   * a positive duration coefficient and item durations (the divisions by them stay finite),
   * a non-negative surface width and non-negative text sizes.
   */
  predicate Sane(e: Env, attrs: map<Danmaku, Attrs>)
  {
    && 0.0 < e.coeff && e.surface.lineHeight != 0 && 0 <= e.surface.drawWidth
    && forall d :: d in attrs ==> 0 < attrs[d].duration && 0.0 <= attrs[d].textSize
  }

  /** Every item has a cache entry, and every recorded item has known fields. */
  predicate Tracked(attrs: map<Danmaku, Attrs>, caches: map<Danmaku, Option<Bitmap>>, infos: seq<Info>)
  {
    && (forall d :: d in attrs ==> d in caches)
    && (forall x :: x in infos ==> x.danmaku in attrs)
  }

  // ----- which items, at which progress -----

  /** The number of lanes: the band between the margins divided by the line height. */
  function MaxLine(e: Env): int
    requires e.surface.lineHeight != 0
  {
    TruncDiv(e.surface.drawHeight - e.surface.marginTop - e.surface.marginBottom, e.surface.lineHeight)
  }

  /**
   * The filter: visible, not blocked, and the time inside the item's inclusive window, whose
   * end is the float `offset + duration * coeff` truncated.
   */
  predicate Shows(e: Env, a: Attrs, t: int)
  {
    && a.visibility
    && !Blocked(e.blockers, a)
    && a.offset <= t <= Trunc(a.offset as real + a.duration as real * e.coeff)
  }

  /** How long an item stays on screen: its duration scaled by the duration coefficient. */
  function Span(e: Env, a: Attrs): (s: real)
    requires 0.0 < e.coeff && 0 < a.duration
    ensures 0.0 < s
  {
    Collision.Positive(a.duration as real, e.coeff);
    a.duration as real * e.coeff
  }

  /** The share of its span an item has been on screen at time `t`. */
  function ProgressOf(e: Env, a: Attrs, t: int): real
    requires 0.0 < e.coeff && 0 < a.duration
  {
    (t - a.offset) as real / Span(e, a)
  }

  /** For an item that starts at a non-negative time, a shown item's progress lies in [0, 1]. */
  lemma ProgressInUnit(e: Env, a: Attrs, t: int)
    requires 0.0 < e.coeff && 0 < a.duration && 0 <= a.offset
    requires Shows(e, a, t)
    ensures 0.0 <= ProgressOf(e, a, t) <= 1.0
  {
    var span := Span(e, a);
    var elapsed := (t - a.offset) as real;
    assert elapsed <= span by {
      assert t as real <= a.offset as real + span;
    }
    UnitRatio(elapsed, span);
  }

  lemma UnitRatio(x: real, s: real)
    requires 0.0 <= x <= s && 0.0 < s
    ensures 0.0 <= x / s <= 1.0
  {
  }

  /** `oldDanmakus.find { it.danmaku == danmaku }`: the first record of the same item. */
  function FindInfo(infos: seq<Info>, d: Danmaku): (r: Option<Info>)
    ensures r.Some? ==> r.value in infos && r.value.danmaku == d
    ensures r.None? ==> forall x :: x in infos ==> x.danmaku != d
    ensures r.Some? ==>
      exists i :: 0 <= i < |infos| && infos[i] == r.value && forall j :: 0 <= j < i ==> infos[j].danmaku != d
    decreases |infos|
  {
    if |infos| == 0 then None
    else if infos[0].danmaku == d then Some(infos[0])
    else FindInfo(infos[1..], d)
  }

  /** `MutableSet.add` on an insertion-ordered set: an equal record is not added twice. */
  function AddInfo(infos: seq<Info>, x: Info): (r: seq<Info>)
    ensures x in r
    ensures r == infos || r == infos + [x]
    ensures x in infos ==> r == infos
  {
    if x in infos then infos else infos + [x]
  }

  // ----- the lane search -----

  /** The highest lane any record uses, and at least 0. */
  function TopLine(infos: seq<Info>): (top: int)
    ensures 0 <= top && forall x :: x in infos ==> x.line <= top
    decreases |infos|
  {
    if |infos| == 0 then 0 else Max(TopLine(infos[1..]), infos[0].line)
  }

  /** What the new item needs for `willHit`. */
  predicate Asking(e: Env, a: Attrs)
  {
    IsLineKind(a.kind) && 0 < a.duration && 0.0 <= a.textSize
  }

  /** `willHit` of the new item against a record's item, with the new item's cache `c`. */
  function Verdict(e: Env, attrs: map<Danmaku, Attrs>, caches: map<Danmaku, Option<Bitmap>>,
                   a: Attrs, x: Info, c: Option<Bitmap>): bool
    requires Sane(e, attrs) && Asking(e, a) && x.danmaku in attrs && x.danmaku in caches
  {
    Collision.WillHitOutcome(e.surface.measure, e.surface.drawWidth, e.coeff, a, attrs[x.danmaku],
                             c, caches[x.danmaku]).1
  }

  /**
   * The inner `for` over `willShowDanmakus`: the first record on `line` of the same class that
   * `willHit` reports a collision with stops the scan. The new item's cache is threaded
   * through, since a scroll check may build it.
   */
  function Scan(e: Env, attrs: map<Danmaku, Attrs>, caches: map<Danmaku, Option<Bitmap>>,
                infos: seq<Info>, a: Attrs, line: int, c: Option<Bitmap>): (r: (bool, Option<Bitmap>))
    requires Sane(e, attrs) && Tracked(attrs, caches, infos) && Asking(e, a)
    ensures r.0 ==> exists x :: x in infos && x.line == line
    decreases |infos|
  {
    if |infos| == 0 then (false, c)
    else
      var x := infos[0];
      var b := attrs[x.danmaku];
      if x.line == line && b.kind == a.kind then
        var out := Collision.WillHitOutcome(e.surface.measure, e.surface.drawWidth, e.coeff, a, b,
                                            c, caches[x.danmaku]);
        if out.1 then (true, out.0) else Scan(e, attrs, caches, infos[1..], a, line, out.0)
      else Scan(e, attrs, caches, infos[1..], a, line, c)
  }

  /** The do-while loop: move down one lane while the scan finds a collision. */
  function Search(e: Env, attrs: map<Danmaku, Attrs>, caches: map<Danmaku, Option<Bitmap>>,
                  infos: seq<Info>, a: Attrs, line: int, c: Option<Bitmap>): (r: (int, Option<Bitmap>))
    requires Sane(e, attrs) && Tracked(attrs, caches, infos) && Asking(e, a)
    requires line <= TopLine(infos) + 1
    ensures line <= r.0
    decreases TopLine(infos) + 1 - line
  {
    var scan := Scan(e, attrs, caches, infos, a, line, c);
    if scan.0 then Search(e, attrs, caches, infos, a, line + 1, scan.1) else (line, scan.1)
  }

  /** Some record on `line` is of the new item's class and collides with it. */
  predicate Hits(e: Env, attrs: map<Danmaku, Attrs>, caches: map<Danmaku, Option<Bitmap>>,
                 infos: seq<Info>, a: Attrs, line: int, c: Option<Bitmap>)
    requires Sane(e, attrs) && Tracked(attrs, caches, infos) && Asking(e, a)
  {
    exists x :: x in infos && x.line == line && attrs[x.danmaku].kind == a.kind &&
      Verdict(e, attrs, caches, a, x, c)
  }

  /** The cache a build attempt could leave: the one there was, or the memoised build. */
  predicate Reachable(e: Env, a: Attrs, c: Option<Bitmap>, c': Option<Bitmap>)
    requires CacheExt.Buildable(a)
  {
    c' == c || c' == CacheExt.Memo(c, CacheExt.BuiltCache(e.surface.measure, a))
  }

  /** Building the new item's cache does not change any `willHit` verdict. */
  lemma VerdictIgnoresBuild(e: Env, attrs: map<Danmaku, Attrs>, caches: map<Danmaku, Option<Bitmap>>,
                            a: Attrs, x: Info, c: Option<Bitmap>, c': Option<Bitmap>)
    requires Sane(e, attrs) && Asking(e, a) && x.danmaku in attrs && x.danmaku in caches
    requires Reachable(e, a, c, c')
    ensures Verdict(e, attrs, caches, a, x, c') == Verdict(e, attrs, caches, a, x, c)
  {
    var built := CacheExt.BuiltCache(e.surface.measure, a);
    CacheExt.MemoIdempotent(c, built);
  }

  lemma HitsIgnoreBuild(e: Env, attrs: map<Danmaku, Attrs>, caches: map<Danmaku, Option<Bitmap>>,
                        infos: seq<Info>, a: Attrs, line: int, c: Option<Bitmap>, c': Option<Bitmap>)
    requires Sane(e, attrs) && Tracked(attrs, caches, infos) && Asking(e, a)
    requires Reachable(e, a, c, c')
    ensures Hits(e, attrs, caches, infos, a, line, c') == Hits(e, attrs, caches, infos, a, line, c)
  {
    forall x | x in infos
      ensures Verdict(e, attrs, caches, a, x, c') == Verdict(e, attrs, caches, a, x, c)
    {
      VerdictIgnoresBuild(e, attrs, caches, a, x, c, c');
    }
  }

  /** A scan reports a collision exactly when some record on the lane collides. */
  lemma {:induction false} ScanMeaning(e: Env, attrs: map<Danmaku, Attrs>, caches: map<Danmaku, Option<Bitmap>>,
                                       infos: seq<Info>, a: Attrs, line: int, c: Option<Bitmap>)
    requires Sane(e, attrs) && Tracked(attrs, caches, infos) && Asking(e, a)
    ensures var r := Scan(e, attrs, caches, infos, a, line, c);
      && (r.0 <==> Hits(e, attrs, caches, infos, a, line, c))
      && Reachable(e, a, c, r.1)
    decreases |infos|
  {
    var built := CacheExt.BuiltCache(e.surface.measure, a);
    CacheExt.MemoIdempotent(c, built);
    if |infos| > 0 {
      var x := infos[0];
      var rest := infos[1..];
      assert forall y :: y in infos <==> y == x || y in rest;
      var b := attrs[x.danmaku];
      if x.line == line && b.kind == a.kind {
        var out := Collision.WillHitOutcome(e.surface.measure, e.surface.drawWidth, e.coeff, a, b,
                                            c, caches[x.danmaku]);
        assert Reachable(e, a, c, out.0);
        if !out.1 {
          ScanMeaning(e, attrs, caches, rest, a, line, out.0);
          HitsIgnoreBuild(e, attrs, caches, rest, a, line, c, out.0);
          CacheExt.MemoIdempotent(out.0, built);
        }
      } else {
        ScanMeaning(e, attrs, caches, rest, a, line, c);
      }
    }
  }

  /**
   * The lane the do-while loop settles on is the first lane, from the starting one, with no
   * colliding record of the same class: every lane before it has one.
   */
  lemma {:induction false} SearchFindsFirstFreeLane(e: Env, attrs: map<Danmaku, Attrs>,
                                                    caches: map<Danmaku, Option<Bitmap>>,
                                                    infos: seq<Info>, a: Attrs, line: int, c: Option<Bitmap>)
    requires Sane(e, attrs) && Tracked(attrs, caches, infos) && Asking(e, a)
    requires line <= TopLine(infos) + 1
    ensures var r := Search(e, attrs, caches, infos, a, line, c);
      && !Hits(e, attrs, caches, infos, a, r.0, c)
      && (forall l :: line <= l < r.0 ==> Hits(e, attrs, caches, infos, a, l, c))
      && Reachable(e, a, c, r.1)
    decreases TopLine(infos) + 1 - line
  {
    var built := CacheExt.BuiltCache(e.surface.measure, a);
    var scan := Scan(e, attrs, caches, infos, a, line, c);
    ScanMeaning(e, attrs, caches, infos, a, line, c);
    if scan.0 {
      var r := Search(e, attrs, caches, infos, a, line + 1, scan.1);
      SearchFindsFirstFreeLane(e, attrs, caches, infos, a, line + 1, scan.1);
      HitsIgnoreBuild(e, attrs, caches, infos, a, r.0, c, scan.1);
      forall l | line + 1 <= l < r.0
        ensures Hits(e, attrs, caches, infos, a, l, c)
      {
        HitsIgnoreBuild(e, attrs, caches, infos, a, l, c, scan.1);
      }
      CacheExt.MemoIdempotent(c, built);
      CacheExt.MemoIdempotent(scan.1, built);
    }
  }

  // ----- drawing one item -----

  /** `line % maxLine` with Kotlin's truncating remainder, and 0 mapped to `maxLine`. */
  function WrapLane(line: int, maxLine: int): int
    requires maxLine != 0
  {
    var l := line - TruncDiv(line, maxLine) * maxLine;
    if l == 0 then maxLine else l
  }

  /** The lane a positive line is drawn in lies in [1, maxLine]; lanes up to `maxLine` stay put. */
  lemma WrapLaneInRange(line: int, maxLine: int)
    requires 1 <= line && 1 <= maxLine
    ensures 1 <= WrapLane(line, maxLine) <= maxLine
    ensures line <= maxLine ==> WrapLane(line, maxLine) == line
  {
    var q := TruncDiv(line, maxLine);
    if line < maxLine {
      QuotientUnique(line, maxLine, q, 0);
    } else if line == maxLine {
      QuotientUnique(line, maxLine, q, 1);
    }
  }

  /** Lanes `maxLine` apart are drawn in the same lane. */
  lemma WrapLanePeriodic(line: int, maxLine: int)
    requires 1 <= line && 1 <= maxLine
    ensures WrapLane(line + maxLine, maxLine) == WrapLane(line, maxLine)
  {
    var q := TruncDiv(line, maxLine);
    assert (q + 1) * maxLine == q * maxLine + maxLine;
    assert (q + 2) * maxLine == (q + 1) * maxLine + maxLine;
    QuotientUnique(line + maxLine, maxLine, TruncDiv(line + maxLine, maxLine), q + 1);
  }

  /** The lane `drawDanmaku` passes to `onDraw`: 0 stays 0, anything else is wrapped. */
  function DrawLine(line: int, maxLine: int): int
    requires line != 0 ==> maxLine != 0
  {
    if line == 0 then 0 else WrapLane(line, maxLine)
  }

  /** `drawDanmaku` draws lane 0 and lanes below `maxLine`, and any lane when covering is allowed. */
  predicate Drawable(e: Env, line: int, maxLine: int)
  {
    line == 0 || line < maxLine || e.allowCovering
  }

  /**
   * `drawDanmaku`: when the lane may be drawn, `onDraw` runs in the wrapped lane and a
   * returned rect is recorded with the unwrapped lane. The result is the new records and the
   * item's cache: whatever `onDraw` left, or `c` when nothing ran.
   */
  function Place(e: Env, infos: seq<Info>, d: Danmaku, a: Attrs, maxLine: int, progress: real,
                 line: int, c: Option<Bitmap>): (r: (seq<Info>, Option<Bitmap>))
    requires 0.0 <= a.textSize && (line != 0 ==> maxLine != 0)
    ensures forall x :: x in r.0 ==> x in infos || x == Info(d, x.rect, line, progress)
    ensures
      var out := Drawing.DrawOutcome(e.surface, a, c, progress, DrawLine(line, maxLine));
      && (Drawable(e, line, maxLine) && out.1.Some? ==> Info(d, out.1.value, line, progress) in r.0)
      && (!(Drawable(e, line, maxLine) && out.1.Some?) ==> r.0 == infos)
  {
    if Drawable(e, line, maxLine) then
      var out := Drawing.DrawOutcome(e.surface, a, c, progress, DrawLine(line, maxLine));
      (if out.1.Some? then AddInfo(infos, Info(d, out.1.value, line, progress)) else infos, out.0)
    else (infos, c)
  }

  /** What every record the pass makes satisfies. */
  predicate Recorded(e: Env, attrs: map<Danmaku, Attrs>, olds: seq<Info>, t: int, x: Info)
    requires Sane(e, attrs) && x.danmaku in attrs
  {
    var a := attrs[x.danmaku];
    && Shows(e, a, t)
    && x.progress == ProgressOf(e, a, t)
    && (FindInfo(olds, x.danmaku).Some? ==> x.line == FindInfo(olds, x.danmaku).value.line)
    && (FindInfo(olds, x.danmaku).None? && IsLineKind(a.kind) ==> 1 <= x.line)
    && (FindInfo(olds, x.danmaku).None? && !IsLineKind(a.kind) ==> x.line == 0)
    && (x.line != 0 ==> x.line < MaxLine(e) || e.allowCovering)
  }

  /**
   * One `forEach` step for item `d`, as the new records and `d`'s cache: filtered out,
   * redrawn on its previous lane, placed in the first free lane, or drawn on lane 0 when it is
   * not a lane item.
   */
  function Outcome(e: Env, attrs: map<Danmaku, Attrs>, olds: seq<Info>, t: int, st: PassState, d: Danmaku)
      : (r: (seq<Info>, Option<Bitmap>))
    requires Sane(e, attrs) && Tracked(attrs, st.caches, st.infos) && d in attrs
    requires 1 <= MaxLine(e)
    ensures forall x :: x in r.0 ==> x in st.infos || (x.danmaku == d && Recorded(e, attrs, olds, t, x))
    ensures !Shows(e, attrs[d], t) ==> r == (st.infos, st.caches[d])
  {
    var a := attrs[d];
    var c := st.caches[d];
    if !Shows(e, a, t) then (st.infos, c)
    else
      var progress := ProgressOf(e, a, t);
      var maxLine := MaxLine(e);
      match FindInfo(olds, d)
      case Some(info) => Place(e, st.infos, d, a, maxLine, progress, info.line, c)
      case None =>
        if IsLineKind(a.kind) then
          var found := Search(e, attrs, st.caches, st.infos, a, 1, c);
          Place(e, st.infos, d, a, maxLine, progress, found.0, found.1)
        else Place(e, st.infos, d, a, 0, progress, 0, c)
  }

  /** The `forEach` over the items, from an empty `willShowDanmakus`; records only listed items. */
  function PassOver(e: Env, attrs: map<Danmaku, Attrs>, olds: seq<Info>, t: int, items: seq<Danmaku>,
                    caches: map<Danmaku, Option<Bitmap>>): (r: PassState)
    requires Sane(e, attrs) && 1 <= MaxLine(e)
    requires (forall d :: d in items ==> d in attrs) && Tracked(attrs, caches, [])
    ensures r.caches.Keys == caches.Keys && Tracked(attrs, r.caches, r.infos)
    ensures forall o :: o in caches && o !in items ==> r.caches[o] == caches[o]
    ensures forall x :: x in r.infos ==> x.danmaku in items
    decreases |items|, 1
  {
    if |items| == 0 then PassState([], caches) else Step(e, attrs, olds, t, items, caches)
  }

  /**
   * The pass over non-empty `items`: the pass over all but the last item, then the step for
   * the last one, which changes only that item's cache.
   */
  function Step(e: Env, attrs: map<Danmaku, Attrs>, olds: seq<Info>, t: int, items: seq<Danmaku>,
                caches: map<Danmaku, Option<Bitmap>>): (r: PassState)
    requires Sane(e, attrs) && 1 <= MaxLine(e)
    requires (forall d :: d in items ==> d in attrs) && Tracked(attrs, caches, []) && 1 <= |items|
    ensures r.caches.Keys == caches.Keys && Tracked(attrs, r.caches, r.infos)
    ensures forall o :: o in caches && o !in items ==> r.caches[o] == caches[o]
    ensures forall x :: x in r.infos ==> x.danmaku in items
    decreases |items|, 0
  {
    var before := PassOver(e, attrs, olds, t, items[..|items| - 1], caches);
    var d := items[|items| - 1];
    var out := Outcome(e, attrs, olds, t, before, d);
    PassState(out.0, before.caches[d := out.1])
  }

  /** The records of the pass over a prefix are of listed items. */
  lemma PassOverFrame(e: Env, attrs: map<Danmaku, Attrs>, olds: seq<Info>, t: int, items: seq<Danmaku>,
                      caches: map<Danmaku, Option<Bitmap>>, i: int)
    requires Sane(e, attrs) && 1 <= MaxLine(e)
    requires (forall d :: d in items ==> d in attrs) && Tracked(attrs, caches, [])
    requires 0 <= i < |items|
    ensures forall x :: x in PassOver(e, attrs, olds, t, items[..i], caches).infos ==> x.danmaku in items
  {
    var before := PassOver(e, attrs, olds, t, items[..i], caches);
    forall x | x in before.infos
      ensures x.danmaku in items
    {
      var k :| 0 <= k < i && items[..i][k] == x.danmaku;
      assert items[k] == x.danmaku;
    }
  }

  /** One more item leaves every other item's cache as the pass so far left it. */
  lemma CacheKept(e: Env, attrs: map<Danmaku, Attrs>, olds: seq<Info>, t: int, items: seq<Danmaku>,
                  caches: map<Danmaku, Option<Bitmap>>, i: int, o: Danmaku)
    requires Sane(e, attrs) && 1 <= MaxLine(e)
    requires (forall d :: d in items ==> d in attrs) && Tracked(attrs, caches, [])
    requires 0 <= i < |items| && o in items && o != items[i]
    ensures var before := PassOver(e, attrs, olds, t, items[..i], caches);
      var after := PassOver(e, attrs, olds, t, items[..i + 1], caches);
      o in before.caches && o in after.caches && after.caches[o] == before.caches[o]
  {
    assert items[..i + 1][..i] == items[..i];
    assert PassOver(e, attrs, olds, t, items[..i + 1], caches) == Step(e, attrs, olds, t, items[..i + 1], caches);
  }

  /** The pass over one more item is the step for that item applied to the pass so far. */
  lemma PassOverSnoc(e: Env, attrs: map<Danmaku, Attrs>, olds: seq<Info>, t: int, items: seq<Danmaku>,
                     caches: map<Danmaku, Option<Bitmap>>, i: int)
    requires Sane(e, attrs) && 1 <= MaxLine(e)
    requires (forall d :: d in items ==> d in attrs) && Tracked(attrs, caches, [])
    requires 0 <= i < |items|
    ensures var before := PassOver(e, attrs, olds, t, items[..i], caches);
      var after := PassOver(e, attrs, olds, t, items[..i + 1], caches);
      && Tracked(attrs, before.caches, before.infos) && items[i] in attrs
      && var out := Outcome(e, attrs, olds, t, before, items[i]);
      after.infos == out.0 && items[i] in after.caches && after.caches[items[i]] == out.1
  {
    assert items[..i + 1][..i] == items[..i];
    assert PassOver(e, attrs, olds, t, items[..i + 1], caches) == Step(e, attrs, olds, t, items[..i + 1], caches);
  }

  /** `drawDanmakus`: no lane fits, and the previous records and caches stay; otherwise the pass. */
  function DrawPass(e: Env, attrs: map<Danmaku, Attrs>, olds: seq<Info>, t: int, items: seq<Danmaku>,
                    caches: map<Danmaku, Option<Bitmap>>): (r: PassState)
    requires Sane(e, attrs) && (forall d :: d in items ==> d in attrs) && Tracked(attrs, caches, [])
    ensures r.caches.Keys == caches.Keys
    ensures MaxLine(e) < 1 ==> r == PassState(olds, caches)
    ensures 1 <= MaxLine(e) ==> forall x :: x in r.infos ==> x.danmaku in items
  {
    if MaxLine(e) < 1 then PassState(olds, caches) else PassOver(e, attrs, olds, t, items, caches)
  }

  /** Every record the pass makes satisfies `Recorded`. */
  lemma {:induction false} PassOverRecorded(e: Env, attrs: map<Danmaku, Attrs>, olds: seq<Info>, t: int,
                                            items: seq<Danmaku>, caches: map<Danmaku, Option<Bitmap>>)
    requires Sane(e, attrs) && 1 <= MaxLine(e)
    requires (forall d :: d in items ==> d in attrs) && Tracked(attrs, caches, [])
    ensures forall x :: x in PassOver(e, attrs, olds, t, items, caches).infos ==> Recorded(e, attrs, olds, t, x)
    decreases |items|
  {
    if |items| > 0 {
      PassOverRecorded(e, attrs, olds, t, items[..|items| - 1], caches);
      assert PassOver(e, attrs, olds, t, items, caches) == Step(e, attrs, olds, t, items, caches);
    }
  }

  /**
   * When a lane fits, every record of `drawDanmakus` is of a listed item that passed the
   * filters, carries its progress, and sits on its previous lane, on a new lane from 1 when it
   * is a lane item, or on lane 0 otherwise, below `MaxLine` unless covering is allowed.
   */
  lemma DrawPassRecorded(e: Env, attrs: map<Danmaku, Attrs>, olds: seq<Info>, t: int, items: seq<Danmaku>,
                         caches: map<Danmaku, Option<Bitmap>>)
    requires Sane(e, attrs) && (forall d :: d in items ==> d in attrs) && Tracked(attrs, caches, [])
    requires 1 <= MaxLine(e)
    ensures forall x :: x in DrawPass(e, attrs, olds, t, items, caches).infos ==>
      x.danmaku in items && Recorded(e, attrs, olds, t, x)
  {
    PassOverRecorded(e, attrs, olds, t, items, caches);
  }

  // ----- lane geometry -----

  /**
   * With a positive line height, lanes 1 to `MaxLine` end inside the band between the
   * margins, and the next lane would not.
   */
  lemma LanesFit(e: Env, line: int)
    requires 0 < e.surface.lineHeight
    ensures var s := e.surface;
      1 <= line <= MaxLine(e) ==>
        LineDanmaku.LaneTop(s.lineHeight, s.marginTop, line) + s.lineHeight as real <= (s.drawHeight - s.marginBottom) as real
    ensures var s := e.surface;
      LineDanmaku.LaneTop(s.lineHeight, s.marginTop, MaxLine(e) + 1) + s.lineHeight as real >
        (s.drawHeight - s.marginBottom) as real
  {
    var s := e.surface;
    var lh := s.lineHeight;
    var band := s.drawHeight - s.marginTop - s.marginBottom;
    var q := MaxLine(e);
    assert lh * (line - 1) + lh == lh * line;
    assert lh * q + lh == lh * (q + 1);
    if 1 <= line <= q {
      MulLeft(line, q, lh);
    }
    if band < 0 {
      MulLeft(q, 0, lh);
    }
  }

  lemma MulLeft(a: int, b: int, c: int)
    requires a <= b && 0 <= c
    ensures c * a <= c * b
  {
    assert c * b - c * a == c * (b - a);
  }
}
