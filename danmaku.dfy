/**
 * The overlay item ("danmaku") record. Kotlin's subclass hierarchy
 * (Danmaku > CacheDanmaku > LineDanmaku > R2L/L2R/Top/Bottom, plus SpecialDanmaku and
 * BiliSpecialDanmaku) becomes one class tagged by its concrete kind; the fields of every
 * subclass live in it, grouped by the class that declares them.
 */
module Items {
  import opened Common

  /** The concrete Kotlin class of an item: `javaClass` in the lane allocator. */
  datatype Kind = R2L | L2R | Top | Bottom | Special | BiliSpecial

  /** Subclasses of `LineDanmaku`: the items that get a lane. */
  predicate IsLineKind(k: Kind)
  {
    k == R2L || k == L2R || k == Top || k == Bottom
  }

  /** Lane items that scroll horizontally (their `willHit` is the scroll check). */
  predicate IsScrollKind(k: Kind)
  {
    k == R2L || k == L2R
  }

  /** Subclasses of `CacheDanmaku`: the items that own a `cache` bitmap. */
  predicate IsCacheKind(k: Kind)
  {
    k != BiliSpecial
  }

  const WHITE: int := -1              // Color.WHITE, 0xFFFFFFFF as a signed Int
  const TRANSPARENT: int := 0         // Color.TRANSPARENT
  const DEFAULT_DURATION: int := 5000
  const SCROLL_DURATION: int := 10000 // the override in R2LDanmaku and L2RDanmaku

  /** The value a caller attaches to an item through `tag` (Kotlin `Any`), as an opaque handle. */
  datatype Tag = Tag(id: int)

  /** A SpecialDanmaku keyframe value: position, z-rotation and alpha. */
  datatype Frame = Frame(x: real, y: real, rotation: real, alpha: int)

  /** One entry of `SpecialDanmaku.keyframes`: a progress key and its frame. */
  datatype Keyframe = Keyframe(p: real, frame: Frame)

  /** The BiliSpecialDanmaku fields that place it: the path's end points and the y-rotation. */
  datatype BiliMotion = BiliMotion(beginX: real, beginY: real, endX: real, endY: real, rotationY: real)

  /** The fields of an item that the frame pass reads and never writes. */
  datatype Attrs = Attrs(
    kind: Kind,
    text: string,
    textSize: real,
    textColor: int,
    underLine: bool,
    alpha: int,
    offset: int,
    duration: int,
    visibility: bool,
    borderColor: int,
    lines: Option<seq<string>>,
    keyframes: seq<Keyframe>,
    motion: BiliMotion,
    tag: Option<Tag>)

  /** `DanmakuBlocker.block`: a predicate on items. */
  type Blocker = Attrs -> bool

  class Danmaku {
    // ----- Danmaku.kt -----
    var text: string
    var textSize: real
    var textColor: int
    var textShadowColor: int
    var underLine: bool
    var alpha: int
    var offset: int
    var borderColor: int
    var duration: int
    var visibility: bool
    var tag: Option<Tag>

    /** The concrete class, fixed at construction. */
    const kind: Kind

    // ----- CacheDanmaku.kt -----
    var cache: Option<Bitmap>

    // ----- SpecialDanmaku.kt and BiliSpecialDanmaku.kt -----
    var lines: Option<seq<string>>
    /** The keyframe map, listed in its iteration order; keys are distinct. */
    var keyframes: seq<Keyframe>

    // ----- BiliSpecialDanmaku.kt -----
    var rotationZ: real
    var rotationY: real
    var beginX: real
    var beginY: real
    var endX: real
    var endY: real
    var translationDuration: int
    var translationStartDelay: int
    var beginAlpha: int
    var endAlpha: int
    var linePaths: array?<LinePath?>
    var isQuadraticEaseOut: bool

    /** A new item of the given class with every property at its declared default. */
    constructor (kind: Kind)
      ensures this.kind == kind
      ensures text == "" && textSize == 25.0 && textColor == WHITE
      ensures textShadowColor == TRANSPARENT && !underLine && alpha == 255
      ensures offset == 0 && borderColor == TRANSPARENT && visibility && tag == None
      ensures duration == if IsScrollKind(kind) then SCROLL_DURATION else DEFAULT_DURATION
      ensures cache == None && lines == None && keyframes == []
      ensures rotationZ == 0.0 && rotationY == 0.0
      ensures beginX == 0.0 && beginY == 0.0 && endX == 0.0 && endY == 0.0
      ensures translationDuration == 0 && translationStartDelay == 0
      ensures beginAlpha == 0 && endAlpha == 0
      ensures linePaths == null && !isQuadraticEaseOut
    {
      this.kind := kind;
      text, textSize, textColor, textShadowColor := "", 25.0, WHITE, TRANSPARENT;
      underLine, alpha, offset, borderColor := false, 255, 0, TRANSPARENT;
      duration := if kind == R2L || kind == L2R then SCROLL_DURATION else DEFAULT_DURATION;
      visibility, tag := true, None;
      cache, lines, keyframes := None, None, [];
      rotationZ, rotationY := 0.0, 0.0;
      beginX, beginY, endX, endY := 0.0, 0.0, 0.0, 0.0;
      translationDuration, translationStartDelay := 0, 0;
      beginAlpha, endAlpha := 0, 0;
      linePaths, isQuadraticEaseOut := null, false;
    }

    /** The snapshot of the fields the frame pass only reads. */
    function Snapshot(): Attrs
      reads this`text, this`textSize, this`textColor, this`underLine, this`alpha
      reads this`offset, this`duration, this`visibility, this`borderColor, this`lines
      reads this`keyframes, this`beginX, this`beginY, this`endX, this`endY, this`rotationY
      reads this`tag
    {
      Attrs(kind, text, textSize, textColor, underLine, alpha, offset, duration,
            visibility, borderColor, lines, keyframes, BiliMotion(beginX, beginY, endX, endY, rotationY), tag)
    }

    /** `toString()`: the item's text. */
    function ToString(): string
      reads this`text
    {
      text
    }
  }

  /** When no field a snapshot reads has changed, every item's snapshot is what it was. */
  twostate lemma SnapshotsKept(items: seq<Danmaku>)
    requires unchanged(items`text, items`textSize, items`textColor, items`underLine, items`alpha, items`offset)
    requires unchanged(items`duration, items`visibility, items`borderColor, items`lines, items`keyframes)
    requires unchanged(items`beginX, items`beginY, items`endX, items`endY, items`rotationY, items`tag)
    ensures forall o :: o in items ==> o.Snapshot() == old(o.Snapshot())
  {
  }

  /** The fields of a `LinePath`, as a value. */
  datatype Segment = Segment(pBegin: Option<Point>, pEnd: Option<Point>, duration: int,
                             beginTime: int, endTime: int, deltaX: real, deltaY: real)

  /** `BiliSpecialDanmaku.LinePath`: one straight segment of a special item's motion path. */
  class LinePath {
    var pBegin: Option<Point>
    var pEnd: Option<Point>
    var duration: int
    var beginTime: int
    var endTime: int
    var deltaX: real
    var deltaY: real

    constructor ()
      ensures pBegin == None && pEnd == None
      ensures duration == 0 && beginTime == 0 && endTime == 0
      ensures deltaX == 0.0 && deltaY == 0.0
    {
      pBegin, pEnd := None, None;
      duration, beginTime, endTime := 0, 0, 0;
      deltaX, deltaY := 0.0, 0.0;
    }

    function State(): Segment
      reads this
    {
      Segment(pBegin, pEnd, duration, beginTime, endTime, deltaX, deltaY)
    }

    /** Records both end points and the displacement between them. */
    method SetPoints(b: Point, e: Point)
      modifies this`pBegin, this`pEnd, this`deltaX, this`deltaY
      ensures pBegin == Some(b) && pEnd == Some(e)
      ensures deltaX == e.x - b.x && deltaY == e.y - b.y
    {
      pBegin := Some(b);
      pEnd := Some(e);
      deltaX := e.x - b.x;
      deltaY := e.y - b.y;
    }
  }
}
