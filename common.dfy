/** Value types and numeric conversions shared by the whole model. */
module Common {

  datatype Option<+T> = None | Some(value: T)

  /** A strictly positive size: a bitmap is never created with a zero or negative side. */
  type Pos = x: int | 1 <= x witness 1

  /** An `android.graphics.Bitmap`, reduced to its dimensions. */
  datatype Bitmap = Bitmap(width: Pos, height: Pos)

  /** The result of `Paint.getTextBounds`: the width and height of the text's bounding box. */
  datatype Bounds = Bounds(width: nat, height: nat)

  /**
   * An `android.graphics.RectF`. `NaNRect` is a rect whose coordinates are all NaN, which is
   * what a special item reports when its interpolation divides zero by zero.
   */
  datatype Rect = Rect(left: real, top: real, right: real, bottom: real) | NaNRect

  /** The rect of the given size whose top-left corner is at (x, y). */
  function RectAt(x: real, y: real, width: real, height: real): (r: Rect)
    ensures r.Rect? && r.left == x && r.top == y
    ensures r.right - r.left == width && r.bottom - r.top == height
  {
    Rect(x, y, x + width, y + height)
  }

  /** The width and height `getSize` reports for an item's text. */
  datatype Size = Size(width: real, height: real)

  /** A `PointF`. */
  datatype Point = Point(x: real, y: real)

  /** Kotlin's `Float.toLong()` / `Float.toInt()`: truncation toward zero. */
  function Trunc(x: real): (r: int)
    ensures 0.0 <= x ==> 0 <= r && r as real <= x < r as real + 1.0
    ensures x < 0.0 ==> r <= 0 && r as real - 1.0 < x <= r as real
  {
    if x >= 0.0 then x.Floor else -((-x).Floor)
  }

  /** Kotlin's integer `/` on `Int` and `Long`: the quotient is truncated toward zero. */
  function TruncDiv(a: int, b: int): (q: int)
    requires b != 0
    ensures 0 <= a && 0 < b ==> 0 <= q && q * b <= a < (q + 1) * b
    ensures a < 0 && 0 < b ==> q <= 0 && (q - 1) * b < a <= q * b
  {
    var m := (if a >= 0 then a else -a) / (if b > 0 then b else -b);
    if (a >= 0) == (b > 0) then m else -m
  }

  /** The quotient of a division with positive divisor is pinned down by its bounds. */
  lemma QuotientUnique(x: int, m: int, q1: int, q2: int)
    requires 0 < m
    requires q1 * m <= x < (q1 + 1) * m
    requires q2 * m <= x < (q2 + 1) * m
    ensures q1 == q2
  {
    if q1 < q2 {
      MulRight(q1 + 1, q2, m);
    } else if q2 < q1 {
      MulRight(q2 + 1, q1, m);
    }
  }

  lemma MulRight(a: int, b: int, m: int)
    requires a <= b && 0 < m
    ensures a * m <= b * m
  {
    assert b * m - a * m == (b - a) * m;
  }

  const LONG_MIN: int := -0x8000_0000_0000_0000
  const LONG_RANGE: int := 0x1_0000_0000_0000_0000

  /** Two's-complement wrap-around of a 64-bit `Long` result. */
  function WrapLong(x: int): (r: int)
    ensures LONG_MIN <= r < LONG_MIN + LONG_RANGE
    ensures LONG_MIN <= x < LONG_MIN + LONG_RANGE ==> r == x
    ensures (r - x) % LONG_RANGE == 0
  {
    (x - LONG_MIN) % LONG_RANGE + LONG_MIN
  }

  function Max(a: int, b: int): int { if a < b then b else a }
  function Min(a: int, b: int): int { if a < b then a else b }

  // ----- Kotlin's String.split(separator) and its inverse -----

  /** True iff `sep` occurs in `s` starting at index `i`. */
  predicate OccursAt(s: string, sep: string, i: nat)
  {
    i + |sep| <= |s| && s[i..i + |sep|] == sep
  }

  /** `s.contains(sep)`. */
  predicate Contains(s: string, sep: string)
  {
    exists i: nat | i <= |s| :: OccursAt(s, sep, i)
  }

  /**
   * `s.split(sep)`: cut at every occurrence of `sep`, scanning from the left and
   * skipping over each occurrence found; empty pieces are kept.
   */
  function Split(s: string, sep: string): (pieces: seq<string>)
    requires |sep| > 0
    ensures |pieces| >= 1
    decreases |s|
  {
    if |s| < |sep| then [s]
    else if s[..|sep|] == sep then [""] + Split(s[|sep|..], sep)
    else
      var rest := Split(s[1..], sep);
      [[s[0]] + rest[0]] + rest[1..]
  }

  /** `pieces.joinToString(sep)`. */
  function Join(pieces: seq<string>, sep: string): string
    requires |pieces| >= 1
  {
    if |pieces| == 1 then pieces[0] else pieces[0] + sep + Join(pieces[1..], sep)
  }

  /** Gluing text onto the front of the first piece glues it onto the front of the joined text. */
  lemma JoinPrepend(x: string, pieces: seq<string>, sep: string)
    requires |pieces| >= 1
    ensures Join([x + pieces[0]] + pieces[1..], sep) == x + Join(pieces, sep)
  {
    var glued := [x + pieces[0]] + pieces[1..];
    assert glued[1..] == pieces[1..];
  }

  /** Splitting and joining again gives back the original text. */
  lemma {:induction false} JoinSplit(s: string, sep: string)
    requires |sep| > 0
    ensures Join(Split(s, sep), sep) == s
    decreases |s|
  {
    if |s| < |sep| {
    } else if s[..|sep|] == sep {
      var tail := Split(s[|sep|..], sep);
      JoinSplit(s[|sep|..], sep);
      assert ([""] + tail)[1..] == tail;
      assert Join(Split(s, sep), sep) == sep + Join(tail, sep);
      assert s == sep + s[|sep|..];
    } else {
      var rest := Split(s[1..], sep);
      JoinSplit(s[1..], sep);
      JoinPrepend([s[0]], rest, sep);
      assert Split(s, sep) == [[s[0]] + rest[0]] + rest[1..];
      assert s == [s[0]] + s[1..];
    }
  }

  /** The text is cut into more than one piece exactly when it contains the separator. */
  lemma {:induction false} SplitManyIffContains(s: string, sep: string)
    requires |sep| > 0
    ensures |Split(s, sep)| > 1 <==> Contains(s, sep)
    decreases |s|
  {
    if |s| < |sep| {
    } else if s[..|sep|] == sep {
      assert OccursAt(s, sep, 0);
    } else {
      SplitManyIffContains(s[1..], sep);
      if Contains(s, sep) {
        var i: nat :| i <= |s| && OccursAt(s, sep, i);
        assert i != 0;
        assert s[1..][i - 1..i - 1 + |sep|] == s[i..i + |sep|];
        assert OccursAt(s[1..], sep, i - 1);
      }
      if Contains(s[1..], sep) {
        var i: nat :| i <= |s[1..]| && OccursAt(s[1..], sep, i);
        assert s[i + 1..i + 1 + |sep|] == s[1..][i..i + |sep|];
        assert OccursAt(s, sep, i + 1);
      }
    }
  }
}
