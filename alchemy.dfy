/** The integer core of `AlchemyCircleEffect`: its multiplicative random
  * generator, the raster routines that draw lines and circles into a binary
  * pixel buffer, and the guard that regenerates that buffer only when the
  * seed changes. */
module Alchemy {
  import opened Wrappers
  import opened JavaInt

  // ------------------------------------------------------------ generator

  const Modulus: int := 2796203
  const Multiplier: int := 125
  const SeedModulus: int := 9999999
  /** 125 · 178957 ≡ 1 (mod 2796203). */
  const Inverse: int := 178957

  /** A state whose product with the multiplier fits in an int. */
  predicate StateInRange(s: int)
  {
    -SeedModulus <= s <= SeedModulus
  }

  /** One step: `(s * 125) % 2796203` on int. The product never wraps, the
    * sign of the state is kept and the result lies strictly inside the
    * modulus. */
  function Scramble(s: int): (r: int)
    requires StateInRange(s)
    ensures IsInt32(s * Multiplier)
    ensures s >= 0 ==> 0 <= r < Modulus
    ensures s < 0 ==> -Modulus < r <= 0
    ensures StateInRange(r)
  {
    JavaRem(Wrap32(s * Multiplier), Modulus)
  }

  /** `n` steps. */
  function Scrambled(s: int, n: nat): (r: int)
    requires StateInRange(s)
    ensures StateInRange(r)
    ensures s >= 0 ==> r >= 0
    ensures s < 0 ==> r <= 0
  {
    if n == 0 then s else Scramble(Scrambled(s, n - 1))
  }

  /** The state `setSeed` leaves: `|seed| % 9999999 + 1`, stepped 9 times. */
  function Seeded(seed: int): (r: int)
    requires IsInt32(seed)
    ensures StateInRange(r) && -Modulus < r < Modulus
  {
    Scrambled(JavaRem(AbsInt32(seed), SeedModulus) + 1, 9)
  }

  /** The value `getRand(min, max)` returns once the state has stepped to
    * `s`: `s % (max - min + 1) + min` on int, the division by zero of an
    * empty int range included. */
  function Pick(s: int, min: int, max: int): (r: Result<int>)
    requires StateInRange(s) && IsInt32(min) && IsInt32(max)
    ensures Wrap32(max - min + 1) == 0 <==> r.Err?
    ensures r.Err? ==> r.failure.Arithmetic?
    ensures s >= 0 && min <= max && IsInt32(max - min + 1) ==> r.Ok? && min <= r.value <= max
    ensures s < 0 && min <= max && IsInt32(max - min + 1) && IsInt32(min - (max - min)) ==>
      r.Ok? && min - (max - min) <= r.value <= min
  {
    var span := Wrap32(max - min + 1);
    if span == 0 then Err(Arithmetic("/ by zero")) else Ok(Wrap32(JavaRem(s, span) + min))
  }

  /** The values a run of `getRand` calls returns from state `s`. */
  function Draws(s: int, ranges: seq<(int, int)>): (r: seq<Result<int>>)
    requires StateInRange(s)
    requires forall k :: 0 <= k < |ranges| ==> IsInt32(ranges[k].0) && IsInt32(ranges[k].1)
    ensures |r| == |ranges|
    decreases |ranges|
  {
    if |ranges| == 0 then []
    else
      var next := Scramble(s);
      [Pick(next, ranges[0].0, ranges[0].1)] + Draws(next, ranges[1..])
  }

  /** Each draw of a run fails exactly when its range's int size is 0. */
  lemma {:induction false} DrawsFailOnEmptyRange(s: int, ranges: seq<(int, int)>)
    requires StateInRange(s)
    requires forall k :: 0 <= k < |ranges| ==> IsInt32(ranges[k].0) && IsInt32(ranges[k].1)
    ensures forall k :: 0 <= k < |ranges| ==> (Draws(s, ranges)[k].Err? <==> Wrap32(ranges[k].1 - ranges[k].0 + 1) == 0)
    decreases |ranges|
  {
    if |ranges| > 0 {
      var next := Scramble(s);
      var tail := ranges[1..];
      DrawsFailOnEmptyRange(next, tail);
      var r := Draws(s, ranges);
      assert r == [Pick(next, ranges[0].0, ranges[0].1)] + Draws(next, tail);
      forall k | 1 <= k < |ranges|
        ensures r[k] == Draws(next, tail)[k - 1] && ranges[k] == tail[k - 1]
      {
      }
    }
  }

  /** From a non-negative state each draw over a non-empty range of int size
    * lies in that range. */
  lemma {:induction false} DrawsInRange(s: int, ranges: seq<(int, int)>)
    requires 0 <= s <= SeedModulus
    requires forall k :: 0 <= k < |ranges| ==> IsInt32(ranges[k].0) && IsInt32(ranges[k].1)
    ensures forall k :: 0 <= k < |ranges| && ranges[k].0 <= ranges[k].1 && IsInt32(ranges[k].1 - ranges[k].0 + 1) ==>
      Draws(s, ranges)[k].Ok? && ranges[k].0 <= Draws(s, ranges)[k].value <= ranges[k].1
    decreases |ranges|
  {
    if |ranges| > 0 {
      var next := Scramble(s);
      var tail := ranges[1..];
      DrawsInRange(next, tail);
      var r := Draws(s, ranges);
      assert r == [Pick(next, ranges[0].0, ranges[0].1)] + Draws(next, tail);
      forall k | 1 <= k < |ranges|
        ensures r[k] == Draws(next, tail)[k - 1] && ranges[k] == tail[k - 1]
      {
      }
    }
  }

  /** The multiplier is invertible modulo the (prime) modulus, so a step
    * yields 0 exactly from a multiple of the modulus. */
  lemma ScrambleZero(s: int)
    requires StateInRange(s)
    ensures Scramble(s) == 0 <==> s % Modulus == 0
  {
    var a := if s >= 0 then s else -s;
    assert Scramble(s) == 0 <==> (a * Multiplier) % Modulus == 0 by {
      assert Wrap32(s * Multiplier) == s * Multiplier;
      if s < 0 {
        assert -(s * Multiplier) == a * Multiplier;
      }
    }
    assert (a * Multiplier) % Modulus == 0 <==> a % Modulus == 0 by {
      if (a * Multiplier) % Modulus == 0 {
        var q := (a * Multiplier) / Modulus;
        assert a * Multiplier == q * Modulus;
        assert a * (Multiplier * Inverse) == q * Inverse * Modulus;
        assert Multiplier * Inverse == 1 + 8 * Modulus;
        assert a * (1 + 8 * Modulus) == a + 8 * a * Modulus;
        assert a == (q * Inverse - 8 * a) * Modulus;
        MultipleMod(q * Inverse - 8 * a);
      }
      if a % Modulus == 0 {
        var k := a / Modulus;
        assert a * Multiplier == (k * Multiplier) * Modulus;
        MultipleMod(k * Multiplier);
      }
    }
    assert s % Modulus == 0 <==> a % Modulus == 0 by {
      if s < 0 {
        NegMod(a);
      }
    }
  }

  lemma MultipleMod(k: int)
    ensures (k * Modulus) % Modulus == 0
  {
  }

  lemma NegMod(a: int)
    ensures (-a) % Modulus == 0 <==> a % Modulus == 0
  {
    if a % Modulus == 0 {
      var k := a / Modulus;
      assert -a == (-k) * Modulus;
      MultipleMod(-k);
    }
    if (-a) % Modulus == 0 {
      var k := (-a) / Modulus;
      assert a == (-k) * Modulus;
      MultipleMod(-k);
    }
  }

  lemma {:induction false} ScrambledZero(s: int, n: nat)
    requires StateInRange(s)
    ensures Scrambled(s, n) == 0 <==> if n == 0 then s == 0 else s % Modulus == 0
    decreases n
  {
    if n > 0 {
      var before := Scrambled(s, n - 1);
      ScrambleZero(before);
      if n > 1 {
        ScrambledZero(s, n - 1);
        assert -Modulus < before < Modulus;
        assert before % Modulus == 0 <==> before == 0;
      }
    }
  }

  /** Any seed but the most negative int leaves a non-negative state, which
    * is zero exactly when `|seed| % 9999999 + 1` is a multiple of 2796203;
    * the most negative int, whose absolute value is itself, leaves a
    * negative state. */
  lemma SeededSign(seed: int)
    requires IsInt32(seed)
    ensures seed != IntMin ==> Seeded(seed) >= 0
    ensures seed != IntMin ==> (Seeded(seed) == 0 <==> (AbsInt32(seed) % SeedModulus + 1) % Modulus == 0)
    ensures seed == IntMin ==> Seeded(seed) < 0
  {
    var base := JavaRem(AbsInt32(seed), SeedModulus) + 1;
    ScrambledZero(base, 9);
    if seed == IntMin {
      assert base == -7483861;
      assert base % Modulus != 0;
    }
  }

  /** Seed 2796202 reduces to the modulus itself: the state is 0 from then
    * on and every draw is its lower bound. */
  lemma DegenerateSeed()
    ensures Seeded(2796202) == 0
    ensures Draws(0, [(4, 8), (2, 6)]) == [Ok(4), Ok(2)]
  {
    SeededSign(2796202);
    assert Scramble(0) == 0;
    assert Pick(0, 4, 8) == Ok(4) && Pick(0, 2, 6) == Ok(2);
    var rest: seq<(int, int)> := [(2, 6)];
    assert Draws(0, rest) == [Pick(0, 2, 6)] + Draws(0, rest[1..]);
    assert Draws(0, [(4, 8)] + rest) == [Pick(0, 4, 8)] + Draws(0, rest);
  }

  /** `CiaccoRandom`. */
  class CiaccoRandom {
    var superSeed: int

    ghost predicate Valid()
      reads this
    {
      StateInRange(superSeed)
    }

    constructor ()
      ensures Valid() && superSeed == 0
    {
      superSeed := 0;
    }

    /** `setSeed`: the state depends on the seed alone. */
    method SetSeed(seed: int)
      requires IsInt32(seed)
      modifies this
      ensures Valid() && superSeed == Seeded(seed)
    {
      superSeed := JavaRem(AbsInt32(seed), SeedModulus) + 1;
      ghost var base := superSeed;
      for i := 0 to 9
        invariant StateInRange(base) && superSeed == Scrambled(base, i)
      {
        superSeed := Scramble(superSeed);
      }
    }

    /** `getRand`: the state steps, then the value is picked from it; a
      * division by zero still leaves the state stepped. */
    method GetRand(min: int, max: int) returns (r: Result<int>)
      requires Valid() && IsInt32(min) && IsInt32(max)
      modifies this
      ensures Valid() && superSeed == Scramble(old(superSeed))
      ensures r == Pick(superSeed, min, max)
    {
      superSeed := Scramble(superSeed);
      var span := Wrap32(max - min + 1);
      if span == 0 {
        return Err(Arithmetic("/ by zero"));
      }
      r := Ok(Wrap32(JavaRem(superSeed, span) + min));
    }
  }

  /** Seeding, then drawing: the values depend on the seed and the ranges
    * alone, whatever state the generator had. */
  method SeedAndDraw(rng: CiaccoRandom, seed: int, ranges: seq<(int, int)>) returns (rs: seq<Result<int>>)
    requires IsInt32(seed)
    requires forall k :: 0 <= k < |ranges| ==> IsInt32(ranges[k].0) && IsInt32(ranges[k].1)
    modifies rng
    ensures rs == Draws(Seeded(seed), ranges)
  {
    rng.SetSeed(seed);
    rs := [];
    var k := 0;
    while k < |ranges|
      invariant 0 <= k <= |ranges| && rng.Valid()
      invariant rs + Draws(rng.superSeed, ranges[k..]) == Draws(Seeded(seed), ranges)
    {
      assert ranges[k..][1..] == ranges[k + 1..];
      var v := rng.GetRand(ranges[k].0, ranges[k].1);
      rs := rs + [v];
      k := k + 1;
    }
  }

  // --------------------------------------------------------------- raster

  newtype Byte = x: int | -128 <= x < 128

  const PixelOn: Byte := 1
  const PixelOff: Byte := 0

  predicate Between(v: int, a: int, b: int)
  {
    (a <= v <= b) || (b <= v <= a)
  }

  /** `BinaryDrawContext`: rows of pixels, written through `set`. */
  class BinaryDrawContext {
    const buffer: array2<Byte>
    const width: int
    const height: int

    /** The height is the number of rows, the width that of the first row. */
    ghost predicate Valid()
    {
      height == buffer.Length0 && width == (if height > 0 then buffer.Length1 else 0)
    }

    constructor (buffer: array2<Byte>)
      ensures Valid() && this.buffer == buffer
    {
      this.buffer := buffer;
      height := buffer.Length0;
      width := if buffer.Length0 > 0 then buffer.Length1 else 0;
    }

    predicate InBounds(x: int, y: int)
    {
      0 <= x < width && 0 <= y < height
    }

    /** `set`: a pixel inside the buffer is written, any other is ignored. */
    method Set(x: int, y: int, value: Byte)
      requires Valid()
      modifies buffer
      ensures forall r, c :: 0 <= r < buffer.Length0 && 0 <= c < buffer.Length1 ==>
        buffer[r, c] == if r == y && c == x then value else old(buffer[r, c])
      ensures !InBounds(x, y) ==> unchanged(buffer)
    {
      if x >= 0 && x < width && y >= 0 && y < height {
        buffer[y, x] := value;
      }
    }

    /** `drawLine`, Bresenham's algorithm in all octants: it terminates,
      * lights both endpoints and lights only pixels within the rectangle
      * they span. */
    method DrawLine(x0: int, y0: int, x1: int, y1: int)
      requires Valid()
      modifies buffer
      ensures InBounds(x0, y0) ==> buffer[y0, x0] == PixelOn
      ensures InBounds(x1, y1) ==> buffer[y1, x1] == PixelOn
      ensures forall r, c :: 0 <= r < buffer.Length0 && 0 <= c < buffer.Length1 ==>
        buffer[r, c] == old(buffer[r, c]) || (buffer[r, c] == PixelOn && Between(c, x0, x1) && Between(r, y0, y1))
    {
      var dx := if x1 - x0 >= 0 then x1 - x0 else x0 - x1;
      var sx := if x0 < x1 then 1 else -1;
      var dy := -(if y1 - y0 >= 0 then y1 - y0 else y0 - y1);
      var sy := if y0 < y1 then 1 else -1;
      var err := dx + dy;
      var x, y := x0, y0;
      // i and j count the steps taken along each axis; pi and pj are the
      // products -dy * i and dx * j, kept so that the error term is linear.
      ghost var i, j, pi, pj := 0, 0, 0, 0;
      while true
        invariant 0 <= i <= dx && 0 <= j <= -dy
        invariant x == (if x0 < x1 then x0 + i else x0 - i)
        invariant y == (if y0 < y1 then y0 + j else y0 - j)
        invariant pi == -dy * i && pj == dx * j
        invariant err == dx + dy + pj - pi
        invariant (i > 0 || j > 0) && InBounds(x0, y0) ==> buffer[y0, x0] == PixelOn
        invariant forall r, c :: 0 <= r < buffer.Length0 && 0 <= c < buffer.Length1 ==>
          buffer[r, c] == old(buffer[r, c]) || (buffer[r, c] == PixelOn && Between(c, x0, x1) && Between(r, y0, y1))
        decreases dx - i + (-dy - j)
      {
        Set(x, y, PixelOn);
        if x == x1 && y == y1 {
          break;
        }
        var e2 := 2 * err;
        LineStepsWithin(dx, -dy, i, j, pi, pj, err);
        if e2 >= dy {
          err := err + dy;
          x := x + sx;
          i, pi := i + 1, pi - dy;
        }
        if e2 <= dx {
          err := err + dx;
          y := y + sy;
          j, pj := j + 1, pj + dx;
        }
      }
    }

    /** `plotCirclePoints`: the eight points symmetric about the centre. */
    method PlotCirclePoints(cx: int, cy: int, x: int, y: int)
      requires Valid()
      modifies buffer
      ensures forall p :: p in Octants(cx, cy, x, y) && InBounds(p.0, p.1) ==> buffer[p.1, p.0] == PixelOn
      ensures forall r, c :: 0 <= r < buffer.Length0 && 0 <= c < buffer.Length1 ==>
        buffer[r, c] == old(buffer[r, c]) || (buffer[r, c] == PixelOn && (c, r) in Octants(cx, cy, x, y))
    {
      Set(cx + x, cy + y, PixelOn);
      Set(cx - x, cy + y, PixelOn);
      Set(cx + x, cy - y, PixelOn);
      Set(cx - x, cy - y, PixelOn);
      Set(cx + y, cy + x, PixelOn);
      Set(cx - y, cy + x, PixelOn);
      Set(cx + y, cy - x, PixelOn);
      Set(cx - y, cy - x, PixelOn);
    }

    /** `drawCircle`, the midpoint algorithm: nothing for a negative radius;
      * otherwise the four points at the radius on the axes are lit, and
      * only pixels within the radius on each axis are. A radius of 0 lights
      * the centre alone. */
    method DrawCircle(cx: int, cy: int, radius: int)
      requires Valid()
      modifies buffer
      ensures radius < 0 ==> unchanged(buffer)
      ensures radius >= 0 ==> forall p :: p in Octants(cx, cy, radius, 0) && InBounds(p.0, p.1) ==> buffer[p.1, p.0] == PixelOn
      ensures forall r, c :: 0 <= r < buffer.Length0 && 0 <= c < buffer.Length1 ==>
        buffer[r, c] == old(buffer[r, c]) || (buffer[r, c] == PixelOn && InSquare(c - cx, r - cy, radius))
    {
      if radius < 0 {
        return;
      }
      var x, y := radius, 0;
      var err := 1 - x;
      while x >= y
        invariant 0 <= y && x <= radius && (y == 0 ==> x == radius)
        invariant y > 0 ==> forall p :: p in Octants(cx, cy, radius, 0) && InBounds(p.0, p.1) ==> buffer[p.1, p.0] == PixelOn
        invariant forall r, c :: 0 <= r < buffer.Length0 && 0 <= c < buffer.Length1 ==>
          buffer[r, c] == old(buffer[r, c]) || (buffer[r, c] == PixelOn && InSquare(c - cx, r - cy, radius))
        decreases x - y + 1
      {
        ghost var first := y == 0;
        label Plot:
        PlotCirclePoints(cx, cy, x, y);
        forall p | p in Octants(cx, cy, radius, 0) && InBounds(p.0, p.1)
          ensures buffer[p.1, p.0] == PixelOn
        {
          if !first {
            assert old@Plot(buffer[p.1, p.0]) == PixelOn;
          }
        }
        y := y + 1;
        if err < 0 {
          err := err + 2 * y + 1;
        } else {
          x := x - 1;
          err := err + 2 * (y - x) + 1;
        }
      }
    }

    /** `drawFilledCircle`: every pixel of the disk is cleared, then the
      * outline is drawn; outside the disk only outline pixels change. */
    method DrawFilledCircle(cx: int, cy: int, radius: int)
      requires Valid()
      modifies buffer
      ensures radius < 0 ==> unchanged(buffer)
      ensures radius >= 0 ==> forall p :: p in Octants(cx, cy, radius, 0) && InBounds(p.0, p.1) ==> buffer[p.1, p.0] == PixelOn
      ensures forall r, c :: 0 <= r < buffer.Length0 && 0 <= c < buffer.Length1 ==>
        || buffer[r, c] == (if InDisk(c - cx, r - cy, radius) then PixelOff else old(buffer[r, c]))
        || (buffer[r, c] == PixelOn && InSquare(c - cx, r - cy, radius))
    {
      if radius < 0 {
        return;
      }
      ClearDisk(cx, cy, radius);
      DrawCircle(cx, cy, radius);
    }

    /** The clearing loops of `drawFilledCircle`: exactly the pixels of the
      * disk are cleared. */
    method ClearDisk(cx: int, cy: int, radius: int)
      requires Valid() && radius >= 0
      modifies buffer
      ensures forall r, c :: 0 <= r < buffer.Length0 && 0 <= c < buffer.Length1 ==>
        buffer[r, c] == if InDisk(c - cx, r - cy, radius) then PixelOff else old(buffer[r, c])
    {
      for y := -radius to radius + 1
        invariant forall r, c :: 0 <= r < buffer.Length0 && 0 <= c < buffer.Length1 ==>
          buffer[r, c] == if InDisk(c - cx, r - cy, radius) && r - cy < y then PixelOff else old(buffer[r, c])
      {
        for x := -radius to radius + 1
          invariant forall r, c :: 0 <= r < buffer.Length0 && 0 <= c < buffer.Length1 ==>
            buffer[r, c] ==
              if InDisk(c - cx, r - cy, radius) && (r - cy < y || (r - cy == y && c - cx < x)) then PixelOff
              else old(buffer[r, c])
        {
          if x * x + y * y <= radius * radius {
            Set(cx + x, cy + y, PixelOff);
          }
        }
      }
    }
  }

  /** The eight points `plotCirclePoints` lights. */
  function Octants(cx: int, cy: int, x: int, y: int): set<(int, int)>
  {
    {(cx + x, cy + y), (cx - x, cy + y), (cx + x, cy - y), (cx - x, cy - y),
     (cx + y, cy + x), (cx - y, cy + x), (cx + y, cy - x), (cx - y, cy - x)}
  }

  /** Within `radius` of the centre on both axes. */
  predicate InSquare(dx: int, dy: int, radius: int)
  {
    -radius <= dx <= radius && -radius <= dy <= radius
  }

  /** The pixels `drawFilledCircle` clears: within the square and with
    * dx² + dy² ≤ r². */
  predicate InDisk(dx: int, dy: int, radius: int)
  {
    InSquare(dx, dy, radius) && dx * dx + dy * dy <= radius * radius
  }

  /** Bresenham's steps stay within the line: with `i` of `dx` horizontal
    * and `j` of `dy` vertical steps taken and the error term as the loop
    * keeps it, a step is taken along an axis only while that axis is not
    * finished, and some step is taken until both are. */
  lemma LineStepsWithin(dx: int, dy: int, i: int, j: int, pi: int, pj: int, err: int)
    requires 0 <= i <= dx && 0 <= j <= dy && !(i == dx && j == dy)
    requires pi == dy * i && pj == dx * j
    requires err == dx - dy + pj - pi
    ensures i == dx ==> 2 * err < -dy
    ensures j == dy ==> 2 * err > dx
    ensures 2 * err >= -dy || 2 * err <= dx
    ensures pi + dy == dy * (i + 1) && pj + dx == dx * (j + 1)
  {
    if i == dx {
      MulLe(dx, j + 1, dy);
      assert err == dx * (j + 1) - dy * (dx + 1);
    }
    if j == dy {
      MulLe(dy, i + 1, dx);
      assert err == dx * (dy + 1) - dy * (i + 1);
    }
  }

  lemma MulLe(a: int, b: int, c: int)
    requires a >= 0 && b <= c
    ensures a * b <= a * c
  {
  }

  // ---------------------------------------------------------- seed guard

  /** What `render` keeps between calls: the seed of the last generation and
    * the pixel buffer, known here by the seed it was generated from (the
    * generation itself is not modelled). */
  datatype RenderState = RenderState(lastSeed: int, bufferSeed: Option<int>)

  /** A fresh effect: the last seed is the most negative int, and there is no
    * buffer. */
  const FreshRender: RenderState := RenderState(IntMin, None)

  /** One `render`: the buffer is regenerated only when the seed differs from
    * the last one. */
  function RenderStep(st: RenderState, seed: int): (r: RenderState)
    ensures r.lastSeed == seed
    ensures seed != st.lastSeed ==> r.bufferSeed == Some(seed)
    ensures seed == st.lastSeed ==> r.bufferSeed == st.bufferSeed
  {
    if seed != st.lastSeed then RenderState(seed, Some(seed)) else st
  }

  function RenderRun(st: RenderState, seeds: seq<int>): RenderState
    decreases |seeds|
  {
    if |seeds| == 0 then st else RenderRun(RenderStep(st, seeds[0]), seeds[1..])
  }

  /** From a fresh effect, the buffer is always the one generated from the
    * current seed, except while every seed so far was the most negative
    * int: then there is no buffer and nothing is drawn. */
  lemma {:induction false} BufferTracksSeed(st: RenderState, seeds: seq<int>)
    requires st.bufferSeed == None || st.bufferSeed == Some(st.lastSeed)
    requires st.bufferSeed == None ==> st.lastSeed == IntMin
    ensures var r := RenderRun(st, seeds);
      && (r.bufferSeed == None || r.bufferSeed == Some(r.lastSeed))
      && (r.bufferSeed == None <==> st.bufferSeed == None && forall k :: 0 <= k < |seeds| ==> seeds[k] == IntMin)
    decreases |seeds|
  {
    if |seeds| > 0 {
      var next := RenderStep(st, seeds[0]);
      BufferTracksSeed(next, seeds[1..]);
      if next.bufferSeed == None {
        assert seeds[0] == IntMin;
      }
      assert forall k :: 1 <= k < |seeds| ==> seeds[k] == seeds[1..][k - 1];
    }
  }

  /** A fresh effect rendered only with the most negative int never draws. */
  lemma MinSeedNeverDraws(seeds: seq<int>)
    requires forall k :: 0 <= k < |seeds| ==> seeds[k] == IntMin
    ensures RenderRun(FreshRender, seeds).bufferSeed == None
  {
    BufferTracksSeed(FreshRender, seeds);
  }

  /** The `render` guard of `AlchemyCircleEffect`. */
  class AlchemyCircle {
    var lastSeed: int
    var bufferSeed: Option<int>

    function State(): RenderState
      reads this
    {
      RenderState(lastSeed, bufferSeed)
    }

    constructor ()
      ensures State() == FreshRender
    {
      lastSeed := IntMin;
      bufferSeed := None;
    }

    /** `render` up to its particle loop: whether the buffer was regenerated
      * and whether anything is drawn (a buffer and a particle type). */
    method Render(seed: int, hasParticleType: bool) returns (regenerated: bool, draws: bool)
      modifies this
      ensures State() == RenderStep(old(State()), seed)
      ensures regenerated <==> seed != old(lastSeed)
      ensures draws <==> bufferSeed.Some? && hasParticleType
    {
      regenerated := seed != lastSeed;
      if regenerated {
        bufferSeed := Some(seed);
        lastSeed := seed;
      }
      draws := bufferSeed.Some? && hasParticleType;
    }
  }
}
