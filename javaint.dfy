/** Java's fixed-width integer arithmetic and the double-to-integer operations
  * the engine relies on, written out over unbounded `int` and `real`. */
module JavaInt {
  const IntMin: int := -0x8000_0000
  const IntMax: int := 0x7FFF_FFFF

  predicate IsInt32(x: int) { IntMin <= x <= IntMax }

  /** Two's-complement wrap-around of a mathematical integer into 32 bits. */
  function Wrap32(x: int): (r: int)
    ensures IsInt32(r)
    ensures (r - x) % 0x1_0000_0000 == 0
    ensures IsInt32(x) ==> r == x
  {
    var m := (x - IntMin) % 0x1_0000_0000;
    m + IntMin
  }

  const LongMin: int := -0x8000_0000_0000_0000
  const LongMax: int := 0x7FFF_FFFF_FFFF_FFFF

  predicate IsInt64(x: int) { LongMin <= x <= LongMax }

  /** Two's-complement wrap-around of a mathematical integer into 64 bits. */
  function Wrap64(x: int): (r: int)
    ensures IsInt64(r)
    ensures (r - x) % 0x1_0000_0000_0000_0000 == 0
    ensures IsInt64(x) ==> r == x
  {
    var m := (x - LongMin) % 0x1_0000_0000_0000_0000;
    m + LongMin
  }

  /** Rounding toward zero, as a Java cast from double to an integral type does. */
  function Trunc(x: real): (r: int)
    ensures x >= 0.0 ==> r as real <= x < r as real + 1.0
    ensures x < 0.0 ==> r as real - 1.0 < x <= r as real
  {
    if x >= 0.0 then x.Floor else -((-x).Floor)
  }

  /** Java's `%` on int (and long): the remainder takes the sign of the dividend. */
  function JavaRem(a: int, b: int): (r: int)
    requires b != 0
    ensures a >= 0 ==> 0 <= r < if b > 0 then b else -b
    ensures a < 0 ==> -(if b > 0 then b else -b) < r <= 0
    ensures a >= 0 && b > 0 ==> r == a % b
  {
    var m := if b > 0 then b else -b;
    if a >= 0 then a % m else -((-a) % m)
  }

  /** Java's `Math.abs(int)`: the absolute value, except that the most negative
    * int is its own absolute value. */
  function AbsInt32(a: int): (r: int)
    requires IsInt32(a)
    ensures IsInt32(r)
    ensures a == IntMin ==> r == IntMin
    ensures a != IntMin ==> r >= 0 && (r == a || r == -a)
  {
    Wrap32(if a < 0 then -a else a)
  }

  /** Java's `%` on double (truncating remainder), for a nonzero divisor. */
  function DoubleRem(a: real, d: real): (r: real)
    requires d != 0.0
  {
    a - d * (Trunc(a / d) as real)
  }

  /** The conversion `(int) d` of a finite double: truncation, saturating at
    * the int range. */
  function DoubleToInt(d: real): (r: int)
    ensures IsInt32(r)
    ensures IsInt32(Trunc(d)) ==> r == Trunc(d)
  {
    var t := Trunc(d);
    if t < IntMin then IntMin else if t > IntMax then IntMax else t
  }

  /** The conversion `(long) d` of a finite double: truncation, saturating
    * at the long range. */
  function DoubleToLong(d: real): (r: int)
    ensures IsInt64(r)
    ensures IsInt64(Trunc(d)) ==> r == Trunc(d)
  {
    var t := Trunc(d);
    if t < LongMin then LongMin else if t > LongMax then LongMax else t
  }

  /** `Math.round(double)`: the closest integer, ties rounded up. */
  function Round(x: real): (r: int)
    ensures x - 0.5 < r as real <= x + 0.5
  {
    (x + 0.5).Floor
  }

  /** `r = a % span; if (r < 0) r += span;` on doubles: the remainder brought
    * into [0, span). */
  function NormalizedRem(a: real, span: real): real
    requires span != 0.0
  {
    var r := DoubleRem(a, span);
    if r < 0.0 then r + span else r
  }

  lemma MulMonotone(x: real, y: real, d: real)
    requires x <= y && d > 0.0
    ensures x * d <= y * d
  {
    assert (y - x) * d >= 0.0;
  }

  lemma MulStrict(x: real, y: real, d: real)
    requires x < y && d > 0.0
    ensures x * d < y * d
  {
    assert (y - x) * d > 0.0;
  }

  lemma FloorDivBounds(a: real, d: real)
    requires d > 0.0
    ensures var q := (a / d).Floor; q as real * d <= a < q as real * d + d
  {
    var f := a / d;
    var q := f.Floor;
    var g := q as real + 1.0;
    assert f * d == a;
    MulMonotone(q as real, f, d);
    assert f < g;
    MulStrict(f, g, d);
    assert g * d == q as real * d + 1.0 * d;
    assert a < q as real * d + d;
  }

  /** A non-negative dividend below n divisors has a whole quotient in [0, n). */
  lemma FloorDivRange(a: real, d: real, n: int)
    requires d > 0.0 && 0.0 <= a < n as real * d
    ensures 0 <= (a / d).Floor < n
  {
    var q := (a / d).Floor;
    FloorDivBounds(a, d);
    if q < 0 {
      WholeSpans(q, d);
      assert false;
    }
    if q >= n {
      MulMonotone(n as real, q as real, d);
      assert false;
    }
  }

  /** Java's double remainder lies strictly between -d and d, takes the sign of
    * the dividend, and differs from it by a whole multiple of d. */
  lemma DoubleRemBounds(a: real, d: real) returns (j: int)
    requires d > 0.0
    ensures DoubleRem(a, d) == a - j as real * d
    ensures a >= 0.0 ==> 0.0 <= DoubleRem(a, d) < d
    ensures a < 0.0 ==> -d < DoubleRem(a, d) <= 0.0
  {
    if a >= 0.0 {
      assert a / d >= 0.0;
      j := (a / d).Floor;
      FloorDivBounds(a, d);
    } else {
      assert -(a / d) == (-a) / d;
      var q := ((-a) / d).Floor;
      FloorDivBounds(-a, d);
      j := -q;
    }
  }

  /** The normalised remainder lies in [0, span) and differs from the dividend
    * by a whole number of spans. */
  lemma NormalizedRemBounds(a: real, span: real) returns (j: int)
    requires span > 0.0
    ensures 0.0 <= NormalizedRem(a, span) < span
    ensures NormalizedRem(a, span) == a - j as real * span
  {
    j := DoubleRemBounds(a, span);
    if DoubleRem(a, span) < 0.0 {
      j := j - 1;
    }
  }

  /** ... and it is the only such value. */
  lemma NormalizedRemUnique(a: real, span: real, v: real, j: int)
    requires span > 0.0
    requires 0.0 <= v < span && v == a - j as real * span
    ensures NormalizedRem(a, span) == v
  {
    var j' := NormalizedRemBounds(a, span);
    var n := NormalizedRem(a, span);
    assert v - n == j' as real * span - j as real * span;
    NoWholeSpanBetween(v, n, span, j, j');
  }

  lemma WholeSpans(k: int, span: real)
    requires span > 0.0
    ensures k >= 1 ==> k as real * span >= span
    ensures k <= -1 ==> k as real * span <= -span
  {
    if k >= 1 {
      MulMonotone(1.0, k as real, span);
    } else if k <= -1 {
      MulMonotone(k as real, -1.0, span);
    }
  }

  /** Two points of [0, span) cannot be a nonzero number of spans apart. */
  lemma NoWholeSpanBetween(v: real, n: real, span: real, j: int, j': int)
    requires span > 0.0 && 0.0 <= v < span && 0.0 <= n < span
    requires v - n == j' as real * span - j as real * span
    ensures j == j'
  {
    var k := j' - j;
    var d := k as real * span;
    assert d == j' as real * span - j as real * span;
    assert v - n == d;
    WholeSpans(k, span);
    if k >= 1 {
      assert false;
    } else if k <= -1 {
      assert false;
    }
  }

  /** Shifting the dividend by whole spans does not change the result. */
  lemma NormalizedRemPeriodic(a: real, span: real, k: int)
    requires span > 0.0
    ensures NormalizedRem(a + k as real * span, span) == NormalizedRem(a, span)
  {
    var j := NormalizedRemBounds(a, span);
    NormalizedRemUnique(a + k as real * span, span, NormalizedRem(a, span), j + k);
  }
}
