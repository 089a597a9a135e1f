/** The keyframe interpolators: given the keyframe a segment starts at, the one
  * it ends at, the eased progress and the segment's duration, each computes
  * the value in between. */
module Interpolators {
  import opened Wrappers
  import opened JavaInt
  import opened Geometry
  import opened Keyframes
  import opened Anchors

  /** `KeyframeInterpolator.interpolate(from, to, progress, durationSeconds)`. */
  type Interpolator<!T> = (Keyframe<T>, Keyframe<T>, real, real) -> T

  // ---------------------------------------------------------------- step

  /** Holds the starting value until progress reaches 1. */
  function StepInterpolate<T>(from: Keyframe<T>, to: Keyframe<T>, progress: real, duration: real): T
  {
    if duration <= 0.0 then to.value
    else if progress < 1.0 then from.value else to.value
  }

  lemma StepHolds<T>(from: Keyframe<T>, to: Keyframe<T>, progress: real, duration: real)
    ensures var r := StepInterpolate(from, to, progress, duration);
      && (r == from.value || r == to.value)
      && (duration > 0.0 && progress < 1.0 ==> r == from.value)
      && (progress >= 1.0 || duration <= 0.0 ==> r == to.value)
  {
  }

  // ------------------------------------------------------------- hermite

  /** The cubic Hermite curve through `start` and `end` with end-point slopes
    * m0 and m1 (per second), over a segment of the given duration, at
    * parameter t. */
  function Hermite(start: real, end: real, m0: real, m1: real, t: real, duration: real): real
  {
    var t2 := t * t;
    var t3 := t2 * t;
    var h00 := 2.0 * t3 - 3.0 * t2 + 1.0;
    var h10 := t3 - 2.0 * t2 + t;
    var h01 := -2.0 * t3 + 3.0 * t2;
    var h11 := t3 - t2;
    h00 * start + h10 * m0 * duration + h01 * end + h11 * m1 * duration
  }

  /** The Hermite curve passes through its end points. */
  lemma HermiteEndPoints(start: real, end: real, m0: real, m1: real, duration: real)
    ensures Hermite(start, end, m0, m1, 0.0, duration) == start
    ensures Hermite(start, end, m0, m1, 1.0, duration) == end
  {
  }

  /** When both slopes are the chord's slope, the Hermite curve is the straight
    * line between the end points. */
  lemma HermiteWithChordSlopesIsLinear(start: real, end: real, t: real, duration: real)
    requires duration > 0.0
    ensures var slope := (end - start) / duration;
      Hermite(start, end, slope, slope, t, duration) == start + (end - start) * t
  {
    var slope := (end - start) / duration;
    assert slope * duration == end - start;
    var t2 := t * t;
    var t3 := t2 * t;
    calc {
      Hermite(start, end, slope, slope, t, duration);
      (2.0 * t3 - 3.0 * t2 + 1.0) * start + (t3 - 2.0 * t2 + t) * (slope * duration)
        + (-2.0 * t3 + 3.0 * t2) * end + (t3 - t2) * (slope * duration);
      (2.0 * t3 - 3.0 * t2 + 1.0) * start + (2.0 * t3 - 3.0 * t2 + t) * (end - start)
        + (-2.0 * t3 + 3.0 * t2) * end;
      start + (end - start) * t;
    }
  }

  /** The shared Hermite step of the number interpolators: NaN (None) when
    * neither tangent is given, a missing tangent defaulting to the chord
    * slope. */
  function HermiteOrNone(start: real, end: real, m0: Option<real>, m1: Option<real>, t: real, duration: real): (r: Option<real>)
    requires duration != 0.0
    ensures r.None? <==> m0.None? && m1.None?
  {
    if m0.None? && m1.None? then None
    else
      var slope := (end - start) / duration;
      Some(Hermite(start, end, m0.GetOr(slope), m1.GetOr(slope), t, duration))
  }

  // -------------------------------------------------------------- double

  /** `DoubleKeyframeInterpolator.interpolate`. */
  function DoubleInterpolate(from: Keyframe<real>, to: Keyframe<real>, progress: real, duration: real): real
  {
    if duration <= 0.0 then to.value
    else
      var h := HermiteOrNone(from.value, to.value, from.outTangent, to.inTangent, progress, duration);
      if h.Some? then h.value
      else from.value + (to.value - from.value) * progress
  }

  /** The double interpolator starts at the first keyframe's value and ends at
    * the second's, whichever tangents are given; a zero-length segment jumps
    * to the end value. */
  lemma DoubleInterpolateEndPoints(from: Keyframe<real>, to: Keyframe<real>, duration: real)
    ensures duration > 0.0 ==> DoubleInterpolate(from, to, 0.0, duration) == from.value
    ensures DoubleInterpolate(from, to, 1.0, duration) == to.value
    ensures duration <= 0.0 ==> forall p :: DoubleInterpolate(from, to, p, duration) == to.value
  {
    if duration > 0.0 {
      var slope := (to.value - from.value) / duration;
      HermiteEndPoints(from.value, to.value, from.outTangent.GetOr(slope), to.inTangent.GetOr(slope), duration);
    }
  }

  /** Without tangents the double interpolator is linear; so it is when every
    * given tangent equals the chord slope. */
  lemma DoubleInterpolateLinear(from: Keyframe<real>, to: Keyframe<real>, progress: real, duration: real)
    requires duration > 0.0
    requires var slope := (to.value - from.value) / duration;
      from.outTangent in {None, Some(slope)} && to.inTangent in {None, Some(slope)}
    ensures DoubleInterpolate(from, to, progress, duration) == from.value + (to.value - from.value) * progress
  {
    HermiteWithChordSlopesIsLinear(from.value, to.value, progress, duration);
  }

  /** From 0 with outgoing tangent 2 to 1 with incoming tangent 0 over one
    * second, the value at half time is 0.75. */
  lemma DoubleHermiteExample()
    ensures DoubleInterpolate(Keyframe(0.0, 0.0, None, Some(2.0), DefaultCurve),
                              Keyframe(1.0, 1.0, Some(0.0), None, DefaultCurve), 0.5, 1.0) == 0.75
  {
  }

  // ------------------------------------------------------------- integer

  /** `clampToInt(long)`. */
  function ClampToInt(v: int): (r: int)
    ensures IsInt32(r)
    ensures IsInt32(v) ==> r == v
    ensures v > IntMax ==> r == IntMax
    ensures v < IntMin ==> r == IntMin
  {
    if v > IntMax then IntMax else if v < IntMin then IntMin else v
  }

  /** Integer keyframes count as 32-bit values. */
  predicate IntKeyframe(k: Keyframe<int>)
  {
    IsInt32(k.value)
    && (k.inTangent.Some? ==> IsInt32(k.inTangent.value))
    && (k.outTangent.Some? ==> IsInt32(k.outTangent.value))
  }

  function AsReal(o: Option<int>): Option<real>
  {
    if o.Some? then Some(o.value as real) else None
  }

  /** `IntegerKeyframeInterpolator.interpolate` as written: the linear path
    * computes `end - start` in 32-bit int arithmetic, which wraps around for
    * end points more than 2^31 - 1 apart. */
  function IntegerInterpolateAsWritten(from: Keyframe<int>, to: Keyframe<int>, progress: real, duration: real): (r: int)
    ensures IsInt32(to.value) ==> IsInt32(r)
  {
    if duration <= 0.0 then to.value
    else
      var h := HermiteOrNone(from.value as real, to.value as real, AsReal(from.outTangent), AsReal(to.inTangent), progress, duration);
      if h.Some? then ClampToInt(Round(h.value))
      else ClampToInt(Round(from.value as real + (Wrap32(to.value - from.value) as real) * progress))
  }

  /** The same with the difference taken exactly, as the Hermite path already
    * does on doubles. The model's integer channels install this corrected
    * interpolator (`ChannelBuilders.Integers`), where `ChannelBuilder.integers()`
    * installs the wrapping one above. */
  function IntegerInterpolate(from: Keyframe<int>, to: Keyframe<int>, progress: real, duration: real): (r: int)
    ensures IsInt32(to.value) ==> IsInt32(r)
  {
    if duration <= 0.0 then to.value
    else
      var h := HermiteOrNone(from.value as real, to.value as real, AsReal(from.outTangent), AsReal(to.inTangent), progress, duration);
      if h.Some? then ClampToInt(Round(h.value))
      else ClampToInt(Round(from.value as real + ((to.value - from.value) as real) * progress))
  }

  /** Whenever `end - start` fits in an int the two agree. */
  lemma IntegerInterpolateAgrees(from: Keyframe<int>, to: Keyframe<int>, progress: real, duration: real)
    requires IsInt32(to.value - from.value)
    ensures IntegerInterpolateAsWritten(from, to, progress, duration) == IntegerInterpolate(from, to, progress, duration)
  {
  }

  /** From the smallest int to the largest, the written linear path ends one
    * below its start (clamped back to the smallest int) instead of at the end
    * value. */
  lemma IntegerInterpolateOverflowExample()
    ensures IntegerInterpolateAsWritten(KeyframeOf(0.0, IntMin), KeyframeOf(1.0, IntMax), 1.0, 1.0) == IntMin
    ensures IntegerInterpolate(KeyframeOf(0.0, IntMin), KeyframeOf(1.0, IntMax), 1.0, 1.0) == IntMax
  {
    assert Wrap32(IntMax - IntMin) == -1;
  }

  /** The integer interpolator reaches both end values, whichever tangents are
    * given. */
  lemma IntegerInterpolateEndPoints(from: Keyframe<int>, to: Keyframe<int>, duration: real)
    requires IntKeyframe(from) && IntKeyframe(to)
    ensures duration > 0.0 ==> IntegerInterpolate(from, to, 0.0, duration) == from.value
    ensures IntegerInterpolate(from, to, 1.0, duration) == to.value
  {
    if duration > 0.0 {
      var s, e := from.value as real, to.value as real;
      var slope := (e - s) / duration;
      HermiteEndPoints(s, e, AsReal(from.outTangent).GetOr(slope), AsReal(to.inTangent).GetOr(slope), duration);
      assert Round(s) == from.value;
      assert Round(e) == to.value;
    }
  }

  lemma MulNonNegative(a: real, b: real)
    requires a >= 0.0 && b >= 0.0
    ensures a * b >= 0.0
  {
  }

  /** On the linear path the result is the exact value rounded, so it stays
    * between the two end values for progress in [0, 1]. */
  lemma IntegerLinearBetween(from: Keyframe<int>, to: Keyframe<int>, progress: real, duration: real)
    requires IntKeyframe(from) && IntKeyframe(to)
    requires duration > 0.0 && from.outTangent.None? && to.inTangent.None?
    requires 0.0 <= progress <= 1.0
    ensures var r := IntegerInterpolate(from, to, progress, duration);
      (if from.value <= to.value then from.value <= r <= to.value else to.value <= r <= from.value)
  {
    var s, e := from.value, to.value;
    var x := s as real + ((e - s) as real) * progress;
    assert IntegerInterpolate(from, to, progress, duration) == ClampToInt(Round(x));
    LinearBetween(s, e, progress);
    if s <= e {
      RoundBetween(x, s, e);
    } else {
      RoundBetween(x, e, s);
    }
  }

  lemma LinearBetween(s: int, e: int, t: real)
    requires 0.0 <= t <= 1.0
    ensures var x := s as real + ((e - s) as real) * t;
      if s <= e then s as real <= x <= e as real else e as real <= x <= s as real
  {
    var d := (e - s) as real;
    if s <= e {
      assert d * t <= d by { MulNonNegative(d, 1.0 - t); }
      MulNonNegative(d, t);
    } else {
      assert -d * t <= -d by { MulNonNegative(-d, 1.0 - t); }
      MulNonNegative(-d, t);
    }
  }

  lemma RoundBetween(x: real, lo: int, hi: int)
    requires lo as real <= x <= hi as real
    ensures lo <= Round(x) <= hi
  {
  }

  // ------------------------------------------------------------- vector

  /** `Vector3dKeyframeInterpolator.interpolate`: the Hermite step per component
    * with vector tangents; linear interpolation without tangents. */
  function VectorInterpolate(from: Keyframe<Vec3>, to: Keyframe<Vec3>, progress: real, duration: real): Vec3
  {
    if duration <= 0.0 then to.value
    else if from.outTangent.None? && to.inTangent.None? then Lerp(from.value, to.value, progress)
    else
      var s, e := from.value, to.value;
      var slope := Vec3((e.x - s.x) / duration, (e.y - s.y) / duration, (e.z - s.z) / duration);
      var m0, m1 := from.outTangent.GetOr(slope), to.inTangent.GetOr(slope);
      Vec3(Hermite(s.x, e.x, m0.x, m1.x, progress, duration),
           Hermite(s.y, e.y, m0.y, m1.y, progress, duration),
           Hermite(s.z, e.z, m0.z, m1.z, progress, duration))
  }

  /** One coordinate of a vector keyframe, as a double keyframe. */
  function ComponentKeyframe(k: Keyframe<Vec3>, a: Axis): Keyframe<real>
  {
    Keyframe(k.time, Component(k.value, a),
             if k.inTangent.Some? then Some(Component(k.inTangent.value, a)) else None,
             if k.outTangent.Some? then Some(Component(k.outTangent.value, a)) else None,
             k.curve)
  }

  /** The vector interpolator is the double interpolator applied to each
    * coordinate. */
  lemma VectorInterpolateIsComponentwise(from: Keyframe<Vec3>, to: Keyframe<Vec3>, progress: real, duration: real, a: Axis)
    ensures Component(VectorInterpolate(from, to, progress, duration), a)
         == DoubleInterpolate(ComponentKeyframe(from, a), ComponentKeyframe(to, a), progress, duration)
  {
    var fa, ta := ComponentKeyframe(from, a), ComponentKeyframe(to, a);
    if duration > 0.0 && (from.outTangent.Some? || to.inTangent.Some?) {
      var s, e := from.value, to.value;
      var slope := Vec3((e.x - s.x) / duration, (e.y - s.y) / duration, (e.z - s.z) / duration);
      var m0, m1 := from.outTangent.GetOr(slope), to.inTangent.GetOr(slope);
      var cslope := (ta.value - fa.value) / duration;
      assert Component(slope, a) == cslope by {
        match a case X => case Y => case Z =>
      }
      assert fa.outTangent.GetOr(cslope) == Component(m0, a);
      assert ta.inTangent.GetOr(cslope) == Component(m1, a);
      assert DoubleInterpolate(fa, ta, progress, duration)
          == Hermite(fa.value, ta.value, Component(m0, a), Component(m1, a), progress, duration);
      match a
      case X =>
      case Y =>
      case Z =>
    } else if duration > 0.0 {
      match a
      case X =>
      case Y =>
      case Z =>
    }
  }

  // ---------------------------------------------------- transform anchor

  /** `TransformProviderInterpolator.interpolate`: the end providers at or past
    * the segment's ends, a blend in between; the duration plays no part. */
  function ProviderInterpolate(from: Keyframe<Provider>, to: Keyframe<Provider>, progress: real, duration: real): Provider
  {
    if progress <= 0.0 then from.value
    else if progress >= 1.0 then to.value
    else MakeBlend(from.value, to.value, progress)
  }

  lemma ProviderInterpolateCases(from: Keyframe<Provider>, to: Keyframe<Provider>, progress: real, duration: real)
    ensures var r := ProviderInterpolate(from, to, progress, duration);
      && (progress <= 0.0 ==> r == from.value)
      && (progress >= 1.0 ==> r == to.value)
      && (0.0 < progress < 1.0 ==> r == Blend(from.value, to.value, progress))
      && (forall d :: ProviderInterpolate(from, to, progress, d) == r)
  {
  }
}
