/**
 * `DanmakuView`: the item list, the showing set, the playback clock and the surface size,
 * with the operations that change them and the frame pass `drawDanmakus`, proved to compute
 * what module Pass specifies.
 */
module View {
  import opened Common
  import opened Items
  import opened Utils
  import Config
  import Collision
  import Drawing
  import opened Pass
  import Playback

  /** The item fields a pass reads, per item. */
  ghost function AttrsOf(items: seq<Danmaku>): (m: map<Danmaku, Attrs>)
    reads set d | d in items
    ensures (forall d :: d in items ==> d in m) && (forall d :: d in m ==> d in items)
  {
    map d | d in items :: d.Snapshot()
  }

  ghost function CachesOf(items: seq<Danmaku>): (m: map<Danmaku, Option<Bitmap>>)
    reads set d | d in items
    ensures (forall d :: d in items ==> d in m) && (forall d :: d in m ==> d in items)
  {
    map d | d in items :: d.cache
  }

  class DanmakuView {
    var drawWidth: int
    var drawHeight: int
    var isPaused: bool
    var isOnceResume: bool
    var conductedTimeNs: int
    var danmakus: seq<Danmaku>
    var showingDanmakus: seq<Info>
    var speed: real
    /** The number of ticker coroutines `resume` has launched. */
    ghost var tickers: nat

    constructor ()
      ensures drawWidth == 0 && drawHeight == 0
      ensures Clock() == Playback.Clock(true, false, 0)
      ensures danmakus == [] && showingDanmakus == [] && speed == 1.0 && tickers == 0
    {
      drawWidth, drawHeight := 0, 0;
      isPaused, isOnceResume, conductedTimeNs := true, false, 0;
      danmakus, showingDanmakus := [], [];
      speed := 1.0;
      tickers := 0;
    }

    function Clock(): Playback.Clock
      reads this`isPaused, this`isOnceResume, this`conductedTimeNs
    {
      Playback.Clock(isPaused, isOnceResume, conductedTimeNs)
    }

    /** `conductedTimeMs`. */
    function ConductedTimeMs(): (ms: int)
      reads this`conductedTimeNs
      ensures 0 <= conductedTimeNs ==> 0 <= ms && ms * 1_000_000 <= conductedTimeNs < (ms + 1) * 1_000_000
      ensures conductedTimeNs < 0 ==> ms <= 0 && (ms - 1) * 1_000_000 < conductedTimeNs <= ms * 1_000_000
    {
      Playback.Millis(conductedTimeNs)
    }

    // ----- the clock -----

    /** `parse`, with the parser's result given: replaces the items, paused at time 0. */
    method Parse(parsed: seq<Danmaku>)
      modifies this`danmakus, this`isPaused, this`isOnceResume, this`conductedTimeNs
      ensures danmakus == parsed && Clock() == Playback.Parsed()
    {
      danmakus := parsed;
      isPaused := true;
      conductedTimeNs := 0;
      isOnceResume := true;
    }

    method DrawOnce()
      modifies this`isOnceResume
      ensures Clock() == Playback.DrawOnce(old(Clock()))
    {
      isOnceResume := true;
    }

    method Pause()
      modifies this`isPaused
      ensures Clock() == Playback.Pause(old(Clock()))
    {
      isPaused := true;
    }

    /** `resume`: only a paused view launches a ticker. */
    method Resume()
      modifies this`isPaused, this`tickers
      ensures Clock() == Playback.Resume(old(Clock()))
      ensures tickers == old(tickers) + if Playback.LaunchesTicker(old(Clock())) then 1 else 0
    {
      if isPaused {
        isPaused := false;
        tickers := tickers + 1;
      }
    }

    method Start(offsetMs: int)
      modifies this`isPaused, this`tickers, this`conductedTimeNs
      ensures Clock() == Playback.Start(old(Clock()), offsetMs)
      ensures tickers == old(tickers) + if Playback.LaunchesTicker(old(Clock())) then 1 else 0
    {
      conductedTimeNs := WrapLong(offsetMs * Playback.NANOS_PER_MILLI);
      Resume();
    }

    method SeekTo(timeMs: int)
      modifies this`conductedTimeNs, this`isOnceResume
      ensures Clock() == Playback.SeekTo(old(Clock()), timeMs)
    {
      conductedTimeNs := WrapLong(timeMs * Playback.NANOS_PER_MILLI);
      isOnceResume := true;
    }

    /** One round of a ticker, with the measured elapsed nanoseconds given. */
    method Tick(elapsedNs: int)
      modifies this`conductedTimeNs
      ensures Clock() == Playback.Tick(old(Clock()), elapsedNs, old(speed))
    {
      var step := Playback.SaturateLong(elapsedNs as real * speed);
      conductedTimeNs := WrapLong(conductedTimeNs + step);
    }

    /** The end of a render-loop round. */
    method FrameDone()
      modifies this`isOnceResume
      ensures Clock() == Playback.FrameDone(old(Clock()))
    {
      if isOnceResume {
        isOnceResume := false;
      }
    }

    method SurfaceChanged(width: int, height: int)
      modifies this`drawWidth, this`drawHeight, this`isOnceResume
      ensures drawWidth == width && drawHeight == height
      ensures Clock() == Playback.DrawOnce(old(Clock()))
    {
      drawWidth := width;
      drawHeight := height;
      isOnceResume := true;
    }

    // ----- the item list -----

    method Add(d: Danmaku)
      modifies this`danmakus
      ensures danmakus == old(danmakus) + [d]
    {
      danmakus := danmakus + [d];
    }

    method AddAll(list: seq<Danmaku>)
      modifies this`danmakus
      ensures danmakus == old(danmakus) + list
    {
      danmakus := danmakus + list;
    }

    method Remove(d: Danmaku)
      modifies this`danmakus
      ensures danmakus == Playback.RemoveFirst(old(danmakus), d)
    {
      var items := danmakus;
      var i := 0;
      while i < |items| && items[i] != d
        invariant 0 <= i <= |items|
        invariant d !in items[..i]
      {
        assert items[..i + 1] == items[..i] + [items[i]];
        i := i + 1;
      }
      if i < |items| {
        assert items[..i + 1] == items[..i] + [d];
        assert Playback.IndexOf(items, d) == i by {
          Playback.IndexIsFirst(items, d, i);
        }
        Playback.RemoveFirstAt(items, d);
        danmakus := items[..i] + items[i + 1..];
      } else {
        assert items[..i] == items;
        Playback.RemoveAbsent(items, d);
      }
    }

    method RemoveAll()
      modifies this`danmakus
      ensures danmakus == []
    {
      danmakus := [];
    }

    // ----- the frame pass -----

    /** The config values and surface a pass reads. */
    function EnvOf(config: Config.DanmakuConfig, bounds: TextBounds, sizeOf: Attrs -> Size): Env
      reads this`drawWidth, this`drawHeight, config, config.blockers
    {
      var s := Drawing.Surface(Measure(bounds, config.textSizeCoefficient), sizeOf, drawWidth, drawHeight,
                               config.lineHeight, config.marginTop, config.marginBottom);
      Env(s, config.durationCoefficient, config.isAllowCovering, config.blockers.items)
    }

    /**
     * `drawDanmakus`: the showing set and the items' caches become what `DrawPass` computes
     * from the old ones; no item field other than the cache changes.
     */
    method DrawDanmakus(config: Config.DanmakuConfig, bounds: TextBounds, sizeOf: Attrs -> Size)
      requires config.lineHeight != 0 && 0.0 < config.durationCoefficient && 0 <= drawWidth
      requires forall d :: d in danmakus ==> 0 < d.duration && 0.0 <= d.textSize
      modifies this`showingDanmakus, danmakus`cache
      ensures var r := DrawPass(old(EnvOf(config, bounds, sizeOf)), old(AttrsOf(danmakus)), old(showingDanmakus),
                                old(ConductedTimeMs()), danmakus, old(CachesOf(danmakus)));
        showingDanmakus == r.infos && forall d :: d in danmakus ==> d.cache == r.caches[d]
      ensures forall d :: d in danmakus ==> d.Snapshot() == old(d.Snapshot())
    {
      var e := EnvOf(config, bounds, sizeOf);
      ghost var attrs := AttrsOf(danmakus);
      ghost var caches := CachesOf(danmakus);
      var maxLine := TruncDiv(drawHeight - config.marginTop - config.marginBottom, config.lineHeight);
      if maxLine < 1 {
        return;
      }
      assert Sane(e, attrs);
      var items, olds, t := danmakus, showingDanmakus, ConductedTimeMs();
      var willShow := RunPass(items, e, attrs, caches, olds, t, maxLine);
      showingDanmakus := willShow;
    }

    /** The `forEach` over the items, filling the new showing set. */
    method RunPass(items: seq<Danmaku>, e: Env, ghost attrs: map<Danmaku, Attrs>,
                   ghost caches: map<Danmaku, Option<Bitmap>>, olds: seq<Info>, t: int, maxLine: int)
        returns (willShow: seq<Info>)
      requires Sane(e, attrs) && 1 <= maxLine == MaxLine(e) && Tracked(attrs, caches, [])
      requires forall d :: d in items ==> d in attrs && d.Snapshot() == attrs[d] && d.cache == caches[d]
      modifies items`cache
      ensures var r := PassOver(e, attrs, olds, t, items, caches);
        && willShow == r.infos
        && forall d :: d in items ==> d.Snapshot() == attrs[d] && d.cache == r.caches[d]
    {
      willShow := [];
      for i := 0 to |items|
        invariant willShow == PassOver(e, attrs, olds, t, items[..i], caches).infos
        invariant forall d :: d in items ==>
          d.Snapshot() == attrs[d] && d.cache == PassOver(e, attrs, olds, t, items[..i], caches).caches[d]
      {
        willShow := PassStep(items, i, e, attrs, caches, olds, t, maxLine, willShow);
      }
      assert items[..|items|] == items;
    }

    /** Round `i` of the `forEach`: the pass so far grows by the step for item `i`. */
    method PassStep(items: seq<Danmaku>, i: int, e: Env, ghost attrs: map<Danmaku, Attrs>,
                    ghost caches: map<Danmaku, Option<Bitmap>>, olds: seq<Info>, t: int, maxLine: int,
                    willShow: seq<Info>) returns (willShow': seq<Info>)
      requires Sane(e, attrs) && 1 <= maxLine == MaxLine(e) && Tracked(attrs, caches, [])
      requires (forall d :: d in items ==> d in attrs) && 0 <= i < |items|
      requires willShow == PassOver(e, attrs, olds, t, items[..i], caches).infos
      requires forall d :: d in items ==>
        d.Snapshot() == attrs[d] && d.cache == PassOver(e, attrs, olds, t, items[..i], caches).caches[d]
      modifies items`cache
      ensures willShow' == PassOver(e, attrs, olds, t, items[..i + 1], caches).infos
      ensures forall d :: d in items ==>
        d.Snapshot() == attrs[d] && d.cache == PassOver(e, attrs, olds, t, items[..i + 1], caches).caches[d]
    {
      var d := items[i];
      PassOverFrame(e, attrs, olds, t, items, caches, i);
      ghost var st := PassOver(e, attrs, olds, t, items[..i], caches);
      PassOverSnoc(e, attrs, olds, t, items, caches, i);
      willShow' := DrawStep(d, e, attrs, st, olds, t, maxLine, willShow);
      SnapshotsKept(items);
      ghost var after := PassOver(e, attrs, olds, t, items[..i + 1], caches);
      forall o | o in items
        ensures o.Snapshot() == attrs[o] && o.cache == after.caches[o]
      {
        if o != d {
          CacheKept(e, attrs, olds, t, items, caches, i, o);
        }
      }
    }

    /** One `forEach` step of the pass for item `d`, the `i`-th. */
    method DrawStep(d: Danmaku, e: Env, ghost attrs: map<Danmaku, Attrs>, ghost st: PassState,
                    olds: seq<Info>, t: int, maxLine: int, willShow: seq<Info>) returns (willShow': seq<Info>)
      requires Sane(e, attrs) && 1 <= maxLine == MaxLine(e) && Tracked(attrs, st.caches, st.infos) && d in attrs
      requires willShow == st.infos && d.Snapshot() == attrs[d] && d.cache == st.caches[d]
      requires forall x :: x in st.infos ==>
        x.danmaku.Snapshot() == attrs[x.danmaku] && x.danmaku.cache == st.caches[x.danmaku]
      modifies d`cache
      ensures (willShow', d.cache) == Outcome(e, attrs, olds, t, st, d)
    {
      willShow' := willShow;
      var shown, progress := Filter(d, e, t);
      if !shown {
        return;
      }
      var info := FindInfo(olds, d);
      if info.Some? {
        willShow' := DrawDanmaku(d, e, maxLine, progress, info.value.line, willShow);
        return;
      }
      if IsLineKind(d.kind) {
        var line := FindLane(d, e, attrs, willShow, st.caches);
        willShow' := DrawDanmaku(d, e, maxLine, progress, line, willShow);
        return;
      }
      willShow' := DrawDanmaku(d, e, 0, progress, 0, willShow);
    }

    /** The three filters of the pass, and the progress of an item that passes them. */
    method Filter(d: Danmaku, e: Env, t: int) returns (shown: bool, progress: real)
      requires 0.0 < e.coeff && 0 < d.duration
      ensures shown == Shows(e, d.Snapshot(), t)
      ensures shown ==> progress == ProgressOf(e, d.Snapshot(), t)
    {
      progress := 0.0;
      var a := d.Snapshot();
      if !a.visibility {
        return false, progress;
      }
      var blocked, _ := ShowBlock(e.blockers, a);
      if blocked {
        return false, progress;
      }
      var duration := a.duration as real * e.coeff;
      if !(a.offset <= t <= Trunc(a.offset as real + duration)) {
        return false, progress;
      }
      assert Shows(e, a, t);
      progress := ProgressOf(e, a, t);
      return true, progress;
    }

    /** The do-while lane search for a new lane item, from lane 1. */
    method FindLane(d: Danmaku, e: Env, ghost attrs: map<Danmaku, Attrs>, infos: seq<Info>,
                    ghost caches: map<Danmaku, Option<Bitmap>>) returns (line: int)
      requires Sane(e, attrs) && Tracked(attrs, caches, infos) && d in attrs
      requires d.Snapshot() == attrs[d] && Asking(e, attrs[d])
      requires forall x :: x in infos ==>
        x.danmaku.Snapshot() == attrs[x.danmaku] && (x.danmaku != d ==> x.danmaku.cache == caches[x.danmaku])
      modifies d`cache
      ensures (line, d.cache) == Search(e, attrs, caches, infos, attrs[d], 1, old(d.cache))
    {
      ghost var goal := Search(e, attrs, caches, infos, attrs[d], 1, old(d.cache));
      line := 1;
      var moved := true;
      while moved
        invariant moved ==> line <= TopLine(infos) + 1 && Search(e, attrs, caches, infos, attrs[d], line, d.cache) == goal
        invariant !moved ==> (line, d.cache) == goal
        decreases moved, TopLine(infos) + 1 - line
      {
        SnapshotsKept([d]);
        moved := ScanLane(d, e, attrs, infos, caches, line);
        if moved {
          line := line + 1;
        }
      }
    }

    /** The inner `for`: does a record on `line` of the same class collide with `d`? */
    method ScanLane(d: Danmaku, e: Env, ghost attrs: map<Danmaku, Attrs>, infos: seq<Info>,
                    ghost caches: map<Danmaku, Option<Bitmap>>, line: int) returns (moved: bool)
      requires Sane(e, attrs) && Tracked(attrs, caches, infos) && d in attrs
      requires d.Snapshot() == attrs[d] && Asking(e, attrs[d])
      requires forall x :: x in infos ==>
        x.danmaku.Snapshot() == attrs[x.danmaku] && (x.danmaku != d ==> x.danmaku.cache == caches[x.danmaku])
      modifies d`cache
      ensures (moved, d.cache) == Scan(e, attrs, caches, infos, attrs[d], line, old(d.cache))
    {
      ghost var a := attrs[d];
      for i := 0 to |infos|
        invariant d.Snapshot() == a
        invariant Scan(e, attrs, caches, infos[i..], a, line, d.cache) == Scan(e, attrs, caches, infos, a, line, old(d.cache))
      {
        var hit := ScanOne(d, e, attrs, infos, caches, line, i);
        if hit {
          return true;
        }
      }
      return false;
    }

    /** One round of the inner `for`: the record at `i` either stops the scan or passes it on. */
    method ScanOne(d: Danmaku, e: Env, ghost attrs: map<Danmaku, Attrs>, infos: seq<Info>,
                   ghost caches: map<Danmaku, Option<Bitmap>>, line: int, i: int) returns (hit: bool)
      requires Sane(e, attrs) && Tracked(attrs, caches, infos) && d in attrs
      requires d.Snapshot() == attrs[d] && Asking(e, attrs[d]) && 0 <= i < |infos|
      requires forall x :: x in infos ==>
        x.danmaku.Snapshot() == attrs[x.danmaku] && (x.danmaku != d ==> x.danmaku.cache == caches[x.danmaku])
      modifies d`cache
      ensures d.Snapshot() == attrs[d]
      ensures var r := Scan(e, attrs, caches, infos[i..], attrs[d], line, old(d.cache));
        if hit then r == (true, d.cache) else r == Scan(e, attrs, caches, infos[i + 1..], attrs[d], line, d.cache)
    {
      assert infos[i..][1..] == infos[i + 1..];
      var info := infos[i];
      assert info in infos;
      var other := info.danmaku;
      hit := false;
      if line == info.line && d.kind == other.kind {
        hit := Collision.WillHit(d, other, e.surface.measure, e.surface.drawWidth, e.coeff);
      }
    }

    /** `drawDanmaku`: draw in the wrapped lane when allowed and record a returned rect. */
    method DrawDanmaku(d: Danmaku, e: Env, maxLine: int, progress: real, line: int, willShow: seq<Info>)
        returns (willShow': seq<Info>)
      requires 0.0 <= d.textSize && (line != 0 ==> maxLine != 0)
      modifies d`cache
      ensures var r := Place(e, willShow, d, d.Snapshot(), maxLine, progress, line, old(d.cache));
        willShow' == r.0 && d.cache == r.1
    {
      willShow' := willShow;
      if line == 0 {
        var rect := Drawing.OnDraw(d, e.surface, progress, 0);
        if rect.Some? {
          willShow' := AddInfo(willShow, Info(d, rect.value, 0, progress));
        }
        return;
      }
      if line < maxLine || e.allowCovering {
        var drawLine := line - TruncDiv(line, maxLine) * maxLine;
        if drawLine == 0 {
          drawLine := maxLine;
        }
        var rect := Drawing.OnDraw(d, e.surface, progress, drawLine);
        if rect.Some? {
          willShow' := AddInfo(willShow, Info(d, rect.value, line, progress));
        }
      }
    }
  }
}
