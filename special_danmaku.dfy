/**
 * SpecialDanmaku: a multi-line item that moves between keyframes. The text-block measurement
 * is shared with BiliSpecialDanmaku, which sizes its text the same way.
 */
module SpecialDanmaku {
  import opened Common
  import opened Items
  import opened Utils
  import opened LineDanmaku

  // ----- measuring a block of lines -----

  /** The lines an item draws: its split `lines` when set, otherwise its whole text. */
  function TextLines(a: Attrs): (texts: seq<string>)
    ensures |texts| >= 1 || a.lines.Some?
    ensures a.lines.None? ==> texts == [a.text]
  {
    if a.lines.Some? then a.lines.value else [a.text]
  }

  /** The width of the widest line, starting from 0, as the measuring loop keeps it. */
  function Widest(tb: TextBounds, size: real, texts: seq<string>): (w: nat)
    ensures forall i :: 0 <= i < |texts| ==> tb(texts[i], size).width <= w
    ensures w == 0 || exists i :: 0 <= i < |texts| && tb(texts[i], size).width == w
    decreases |texts|
  {
    if |texts| == 0 then 0
    else
      var w := Widest(tb, size, texts[..|texts| - 1]);
      var last := tb(texts[|texts| - 1], size).width;
      if w < last then last else w
  }

  /** The height of the lines stacked one under another. */
  function StackedHeight(tb: TextBounds, size: real, texts: seq<string>): (h: nat)
    ensures forall i :: 0 <= i < |texts| ==> tb(texts[i], size).height <= h
    ensures (forall i :: 0 <= i < |texts| ==> tb(texts[i], size).height == 0) ==> h == 0
    decreases |texts|
  {
    if |texts| == 0 then 0
    else StackedHeight(tb, size, texts[..|texts| - 1]) + tb(texts[|texts| - 1], size).height
  }

  /** A third of the text size, truncated: the padding added to a block of lines. */
  function Pad(textSize: real): (pad: nat)
    requires textSize >= 0.0
    ensures pad == 0 <==> textSize < 3.0
  {
    Trunc(textSize / 3.0)
  }

  /** The cache `onBuildCache` would create for a special item. */
  function SpecialCacheFor(tb: TextBounds, textSizeCoefficient: real, a: Attrs): Option<Bitmap>
    requires a.textSize >= 0.0
  {
    var size := PaintTextSize(a, textSizeCoefficient);
    var texts := TextLines(a);
    Sized(Widest(tb, size, texts), StackedHeight(tb, size, texts), Pad(a.textSize))
  }

  /** A bitmap of the measured size plus padding on both sides, or none when a side is zero. */
  function Sized(width: nat, height: nat, pad: nat): Option<Bitmap>
  {
    if width + pad == 0 || height + pad == 0 then None else Some(Bitmap(width + pad, height + pad))
  }

  /**
   * No cache exactly when the item's text is smaller than 3 and every line has zero width or
   * every line has zero height; otherwise the cache covers every line.
   */
  lemma SpecialCacheMeaning(tb: TextBounds, textSizeCoefficient: real, a: Attrs)
    requires a.textSize >= 0.0
    ensures
      var c := SpecialCacheFor(tb, textSizeCoefficient, a);
      var size := PaintTextSize(a, textSizeCoefficient);
      var texts := TextLines(a);
      && (c.None? <==>
            a.textSize < 3.0 &&
            ((forall i :: 0 <= i < |texts| ==> tb(texts[i], size).width == 0) ||
             (forall i :: 0 <= i < |texts| ==> tb(texts[i], size).height == 0)))
      && (c.Some? ==> forall i :: 0 <= i < |texts| ==>
            tb(texts[i], size).width <= c.value.width && tb(texts[i], size).height <= c.value.height)
  {
  }

  /** The measuring loop: the widest line's width and the lines' total height. */
  method MeasureLines(tb: TextBounds, size: real, texts: seq<string>) returns (width: nat, height: nat)
    ensures width == Widest(tb, size, texts) && height == StackedHeight(tb, size, texts)
  {
    width, height := 0, 0;
    for i := 0 to |texts|
      invariant width == Widest(tb, size, texts[..i])
      invariant height == StackedHeight(tb, size, texts[..i])
    {
      assert texts[..i + 1][..i] == texts[..i];
      var bounds := tb(texts[i], size);
      if width < bounds.width {
        width := bounds.width;
      }
      height := height + bounds.height;
    }
    assert texts[..|texts|] == texts;
  }

  /** Measures every line, pads the block by a third of the text size and stores the bitmap. */
  method OnBuildCache(d: Danmaku, tb: TextBounds, textSizeCoefficient: real)
    requires d.kind == Special && d.textSize >= 0.0
    modifies d`cache
    ensures d.cache == AfterBuild(old(d.cache), SpecialCacheFor(tb, textSizeCoefficient, d.Snapshot()))
  {
    var built := MeasureBlock(d, tb, textSizeCoefficient);
    if built.None? {
      return;
    }
    d.cache := built;
    SnapshotsKept([d]);
  }

  /** The measuring half of `onBuildCache`: the padded block size, or none when a side is zero. */
  method MeasureBlock(d: Danmaku, tb: TextBounds, textSizeCoefficient: real) returns (built: Option<Bitmap>)
    requires d.textSize >= 0.0
    ensures built == SpecialCacheFor(tb, textSizeCoefficient, d.Snapshot())
  {
    ghost var a := d.Snapshot();
    var size := d.textSize * textSizeCoefficient;
    var texts := if d.lines.Some? then d.lines.value else [d.text];
    assert TextLines(a) == texts && PaintTextSize(a, textSizeCoefficient) == size;
    var width, height := MeasureLines(tb, size, texts);
    var pad := Pad(d.textSize);
    assert SpecialCacheFor(tb, textSizeCoefficient, a) == Sized(width, height, pad);
    if width + pad == 0 || height + pad == 0 {
      return None;
    }
    built := Some(Bitmap(width + pad, height + pad));
  }

  // ----- keyframes -----

  const DEFAULT_START_FRAME: Frame := Frame(0.0, 0.0, 0.0, 255)
  const DEFAULT_END_FRAME: Frame := Frame(1.0, 1.0, 0.0, 255)

  /** The two keyframes around the current progress, with the progress key of each. */
  datatype Bracket = Bracket(lastP: real, lastFrame: Frame, nextP: real, nextFrame: Frame)

  const INITIAL_BRACKET: Bracket := Bracket(0.0, DEFAULT_START_FRAME, 1.0, DEFAULT_END_FRAME)

  /** One turn of the keyframe loop: each bound moves to `k` when `k` lies between it and the progress. */
  function Visit(b: Bracket, progress: real, k: Keyframe): Bracket
  {
    var b1 := if b.lastP <= k.p <= progress then b.(lastP := k.p, lastFrame := k.frame) else b;
    if progress <= k.p <= b1.nextP then b1.(nextP := k.p, nextFrame := k.frame) else b1
  }

  /** The bracket the loop leaves after visiting the keyframes in the given order. */
  function BracketOf(ks: seq<Keyframe>, progress: real): Bracket
    decreases |ks|
  {
    if |ks| == 0 then INITIAL_BRACKET
    else Visit(BracketOf(ks[..|ks| - 1], progress), progress, ks[|ks| - 1])
  }

  /** Runs the keyframe loop of `onDraw`. */
  method FindBracket(ks: seq<Keyframe>, progress: real) returns (b: Bracket)
    ensures b == BracketOf(ks, progress)
    ensures LowerBracket(ks, progress, b) && UpperBracket(ks, progress, b)
  {
    var lastP, nextP := 0.0, 1.0;
    var lastFrame, nextFrame := DEFAULT_START_FRAME, DEFAULT_END_FRAME;
    for i := 0 to |ks|
      invariant Bracket(lastP, lastFrame, nextP, nextFrame) == BracketOf(ks[..i], progress)
    {
      assert ks[..i + 1][..i] == ks[..i];
      var k := ks[i];
      if lastP <= k.p <= progress {
        lastP, lastFrame := k.p, k.frame;
      }
      if progress <= k.p <= nextP {
        nextP, nextFrame := k.p, k.frame;
      }
    }
    assert ks[..|ks|] == ks;
    b := Bracket(lastP, lastFrame, nextP, nextFrame);
    BracketIsExtreme(ks, progress);
  }

  /**
   * The lower bound is the largest key in `[0, progress]` with its frame, or 0 and the default
   * start frame when no key lies there.
   */
  ghost predicate LowerBracket(ks: seq<Keyframe>, progress: real, b: Bracket)
  {
    && (forall k | k in ks && 0.0 <= k.p <= progress :: k.p <= b.lastP)
    && ((b.lastP == 0.0 && b.lastFrame == DEFAULT_START_FRAME &&
         forall k | k in ks :: !(0.0 <= k.p <= progress)) ||
        (Keyframe(b.lastP, b.lastFrame) in ks && 0.0 <= b.lastP <= progress))
  }

  /**
   * The upper bound is the smallest key in `[progress, 1]` with its frame, or 1 and the default
   * end frame when no key lies there.
   */
  ghost predicate UpperBracket(ks: seq<Keyframe>, progress: real, b: Bracket)
  {
    && (forall k | k in ks && progress <= k.p <= 1.0 :: b.nextP <= k.p)
    && ((b.nextP == 1.0 && b.nextFrame == DEFAULT_END_FRAME &&
         forall k | k in ks :: !(progress <= k.p <= 1.0)) ||
        (Keyframe(b.nextP, b.nextFrame) in ks && progress <= b.nextP <= 1.0))
  }

  /** Whatever the visiting order, the loop brackets the progress by the nearest keys on each side. */
  lemma {:induction false} BracketIsExtreme(ks: seq<Keyframe>, progress: real)
    ensures LowerBracket(ks, progress, BracketOf(ks, progress))
    ensures UpperBracket(ks, progress, BracketOf(ks, progress))
    decreases |ks|
  {
    if |ks| > 0 {
      var init, k := ks[..|ks| - 1], ks[|ks| - 1];
      assert ks == init + [k];
      BracketIsExtreme(init, progress);
      var b0 := BracketOf(init, progress);
      var b1 := if b0.lastP <= k.p <= progress then b0.(lastP := k.p, lastFrame := k.frame) else b0;
      assert BracketOf(ks, progress) ==
        if progress <= k.p <= b1.nextP then b1.(nextP := k.p, nextFrame := k.frame) else b1;
      assert 0.0 <= b0.lastP && b0.nextP <= 1.0;
    }
  }

  /** The keys of a keyframe map are pairwise distinct. */
  predicate DistinctKeys(ks: seq<Keyframe>)
  {
    forall i, j :: 0 <= i < j < |ks| ==> ks[i].p != ks[j].p
  }

  /** In a map with distinct keys, a key determines its frame. */
  lemma FrameOfKey(ks: seq<Keyframe>, k1: Keyframe, k2: Keyframe)
    requires DistinctKeys(ks)
    requires k1 in ks && k2 in ks && k1.p == k2.p
    ensures k1 == k2
  {
    var i :| 0 <= i < |ks| && ks[i] == k1;
    var j :| 0 <= j < |ks| && ks[j] == k2;
    assert i == j;
  }

  /** Two orders of the same keyframe map give the same bracket. */
  lemma BracketIgnoresOrder(ks1: seq<Keyframe>, ks2: seq<Keyframe>, progress: real)
    requires DistinctKeys(ks1) && DistinctKeys(ks2)
    requires multiset(ks1) == multiset(ks2)
    ensures BracketOf(ks1, progress) == BracketOf(ks2, progress)
  {
    BracketIsExtreme(ks1, progress);
    BracketIsExtreme(ks2, progress);
    var b1, b2 := BracketOf(ks1, progress), BracketOf(ks2, progress);
    forall k
      ensures k in ks1 <==> k in ks2
    {
      calc {
        k in ks1;
        k in multiset(ks1);
        k in multiset(ks2);
        k in ks2;
      }
    }
    var lo1, lo2 := Keyframe(b1.lastP, b1.lastFrame), Keyframe(b2.lastP, b2.lastFrame);
    if lo1 in ks1 && 0.0 <= b1.lastP <= progress {
      assert lo1 in ks2;
      FrameOfKey(ks2, lo1, lo2);
    }
    var hi1, hi2 := Keyframe(b1.nextP, b1.nextFrame), Keyframe(b2.nextP, b2.nextFrame);
    if hi1 in ks1 && progress <= b1.nextP <= 1.0 {
      assert hi1 in ks2;
      FrameOfKey(ks2, hi1, hi2);
    }
  }

  // ----- interpolation -----

  /** The interpolated position, z-rotation and alpha between the two bracketing frames. */
  datatype Pose = Pose(x: real, y: real, rotation: real, alpha: int)

  function Lerp(a: real, b: real, fraction: real): real
  {
    a + (b - a) * fraction
  }

  /**
   * Linear interpolation by `fraction = (progress - lastP) / (nextP - lastP)`. When both keys
   * coincide the fraction is 0/0, a NaN, and there is no finite pose.
   */
  function Interpolate(b: Bracket, progress: real): (pose: Option<Pose>)
    ensures pose.None? <==> b.nextP == b.lastP
  {
    if b.nextP == b.lastP then None
    else
      var fraction := (progress - b.lastP) / (b.nextP - b.lastP);
      var (l, n) := (b.lastFrame, b.nextFrame);
      Some(Pose(Lerp(l.x, n.x, fraction), Lerp(l.y, n.y, fraction),
                Lerp(l.rotation, n.rotation, fraction),
                Trunc(Lerp(l.alpha as real, n.alpha as real, fraction))))
  }

  /** At the lower key the item is exactly at the lower frame; at the upper key, at the upper frame. */
  lemma InterpolateAtKeys(b: Bracket)
    requires b.lastP != b.nextP
    ensures Interpolate(b, b.lastP) ==
      Some(Pose(b.lastFrame.x, b.lastFrame.y, b.lastFrame.rotation, b.lastFrame.alpha))
    ensures Interpolate(b, b.nextP) ==
      Some(Pose(b.nextFrame.x, b.nextFrame.y, b.nextFrame.rotation, b.nextFrame.alpha))
  {
    DivSelf(b.nextP - b.lastP);
    TruncOfInt(b.lastFrame.alpha);
    TruncOfInt(b.nextFrame.alpha);
  }

  /** Between its keys the position stays between the two frames' positions. */
  lemma InterpolateBetween(b: Bracket, progress: real)
    requires b.lastP <= progress <= b.nextP && b.lastP < b.nextP
    ensures Interpolate(b, progress).Some?
    ensures var pose := Interpolate(b, progress).value;
      && Between(pose.x, b.lastFrame.x, b.nextFrame.x)
      && Between(pose.y, b.lastFrame.y, b.nextFrame.y)
      && Between(pose.rotation, b.lastFrame.rotation, b.nextFrame.rotation)
  {
    var fraction := (progress - b.lastP) / (b.nextP - b.lastP);
    FractionInUnit(progress - b.lastP, b.nextP - b.lastP);
    LerpBetween(b.lastFrame.x, b.nextFrame.x, fraction);
    LerpBetween(b.lastFrame.y, b.nextFrame.y, fraction);
    LerpBetween(b.lastFrame.rotation, b.nextFrame.rotation, fraction);
  }

  predicate Between(v: real, a: real, b: real)
  {
    (a <= v <= b) || (b <= v <= a)
  }

  lemma FractionInUnit(num: real, den: real)
    requires 0.0 <= num <= den && 0.0 < den
    ensures 0.0 <= num / den <= 1.0
  {
    assert num / den * den == num;
  }

  lemma LerpBetween(a: real, b: real, fraction: real)
    requires 0.0 <= fraction <= 1.0
    ensures Between(Lerp(a, b, fraction), a, b)
  {
    var d := b - a;
    var p, q := d * fraction, d * (1.0 - fraction);
    assert p + q == d;
    if a <= b {
      MulNonneg(d, fraction);
      MulNonneg(d, 1.0 - fraction);
    } else {
      MulNonneg(-d, fraction);
      MulNonneg(-d, 1.0 - fraction);
      assert (-d) * fraction == -p;
      assert (-d) * (1.0 - fraction) == -q;
    }
  }

  lemma MulNonneg(x: real, y: real)
    requires 0.0 <= x && 0.0 <= y
    ensures 0.0 <= x * y
  {
  }

  lemma DivSelf(x: real)
    requires x != 0.0
    ensures x / x == 1.0 && 0.0 / x == 0.0
  {
  }

  lemma ScaleInUnit(c: real, fraction: real)
    requires 0.0 <= c && 0.0 <= fraction <= 1.0
    ensures 0.0 <= c * fraction <= c
  {
    assert 0.0 <= c * (1.0 - fraction);
    assert c * (1.0 - fraction) == c - c * fraction;
  }

  lemma TruncOfInt(n: int)
    ensures Trunc(n as real) == n
  {
  }

  // ----- placement -----

  /**
   * The rect `onDraw` reports once a bitmap is available: the bitmap's size at the
   * interpolated point shifted by the surface size, or, for a rotated item, the empty rect
   * mapped through the rotation and translation, which collapses to that point.
   */
  function SpecialRect(bitmap: Bitmap, b: Bracket, progress: real, drawWidth: int, drawHeight: int): (r: Rect)
    ensures Interpolate(b, progress).None? <==> r == NaNRect
    ensures Interpolate(b, progress).Some? ==>
      var pose := Interpolate(b, progress).value;
      && r.left == pose.x + drawWidth as real && r.top == pose.y + drawHeight as real
      && (pose.rotation == 0.0 ==>
            r.right - r.left == bitmap.width as real && r.bottom - r.top == bitmap.height as real)
      && (pose.rotation != 0.0 ==> r.right == r.left && r.bottom == r.top)
  {
    match Interpolate(b, progress)
    case None => NaNRect
    case Some(pose) =>
      var drawX := pose.x + drawWidth as real;
      var drawY := pose.y + drawHeight as real;
      if pose.rotation == 0.0 then Rect(drawX, drawY, drawX + bitmap.width as real, drawY + bitmap.height as real)
      else Rect(drawX, drawY, drawX, drawY)
  }

  /**
   * Without keyframes the item moves along the diagonal from the default start frame to the
   * default end frame: at progress p it is drawn, unrotated, at (drawWidth + p, drawHeight + p).
   */
  lemma DefaultPath(bitmap: Bitmap, progress: real, drawWidth: int, drawHeight: int)
    requires 0.0 <= progress <= 1.0
    ensures var x := drawWidth as real + progress;
      var y := drawHeight as real + progress;
      SpecialRect(bitmap, BracketOf([], progress), progress, drawWidth, drawHeight) ==
        Rect(x, y, x + bitmap.width as real, y + bitmap.height as real)
  {
    assert BracketOf([], progress) == INITIAL_BRACKET;
    assert progress / 1.0 == progress;
  }

  // ----- text -----

  /** `fillText`: split the text into lines at each "\n", when it has one. */
  method FillText(d: Danmaku)
    modifies d`lines
    ensures |d.text| > 0 && Contains(d.text, "\n") ==> d.lines == Some(Split(d.text, "\n"))
    ensures !(|d.text| > 0 && Contains(d.text, "\n")) ==> d.lines == old(d.lines)
  {
    if |d.text| > 0 && Contains(d.text, "\n") {
      d.lines := Some(Split(d.text, "\n"));
    }
  }

  /** The lines `fillText` stores are more than one and join back into the text. */
  lemma FillTextLines(text: string)
    requires |text| > 0 && Contains(text, "\n")
    ensures |Split(text, "\n")| > 1
    ensures Join(Split(text, "\n"), "\n") == text
  {
    SplitManyIffContains(text, "\n");
    JoinSplit(text, "\n");
  }
}
