/** A keyframe: a time, a value, optional Hermite tangents and the timing curve
  * of the transition that starts at it; and its fluent builder. */
module Keyframes {
  import opened Wrappers
  import opened Curves

  datatype Keyframe<T> = Keyframe(
    time: real,
    value: T,
    inTangent: Option<T>,
    outTangent: Option<T>,
    curve: Curve)

  /** The curve a builder starts with. */
  const DefaultCurve: Curve := EasingCurve(Linear)

  /** `Keyframe.Builder`: the time is fixed by `Keyframe.at`; the value and the
    * curve may be null (None) until `build` checks them. */
  class KeyframeBuilder<T> {
    const time: real
    var value: Option<T>
    var inTangent: Option<T>
    var outTangent: Option<T>
    var curve: Option<Curve>

    /** `Keyframe.at(time)`. */
    constructor At(time: real)
      ensures this.time == time
      ensures value == None && inTangent == None && outTangent == None
      ensures curve == Some(DefaultCurve)
    {
      this.time := time;
      value := None;
      inTangent := None;
      outTangent := None;
      curve := Some(DefaultCurve);
    }

    method SetValue(v: Option<T>)
      modifies this
      ensures value == v
      ensures inTangent == old(inTangent) && outTangent == old(outTangent) && curve == old(curve)
    {
      value := v;
    }

    method SetInTangent(v: Option<T>)
      modifies this
      ensures inTangent == v
      ensures value == old(value) && outTangent == old(outTangent) && curve == old(curve)
    {
      inTangent := v;
    }

    method SetOutTangent(v: Option<T>)
      modifies this
      ensures outTangent == v
      ensures value == old(value) && inTangent == old(inTangent) && curve == old(curve)
    {
      outTangent := v;
    }

    /** `curve(c)`: a null curve is accepted here and refused by `build`. */
    method SetCurve(c: Option<Curve>)
      modifies this
      ensures curve == c
      ensures value == old(value) && inTangent == old(inTangent) && outTangent == old(outTangent)
    {
      curve := c;
    }

    /** `easing(e)`: a null easing is refused at once and the curve is kept. */
    method SetEasing(e: Option<Easing>) returns (failure: Option<Failure>)
      modifies this
      ensures failure == if e.None? then Some(NullPointer("easing")) else None
      ensures curve == if e.Some? then Some(EasingCurve(e.value)) else old(curve)
      ensures value == old(value) && inTangent == old(inTangent) && outTangent == old(outTangent)
    {
      if e.None? {
        return Some(NullPointer("easing"));
      }
      curve := Some(EasingCurve(e.value));
      failure := None;
    }

    /** `bezier(p1x, p1y, p2x, p2y)`. */
    method SetBezier(p1x: real, p1y: real, p2x: real, p2y: real)
      modifies this
      ensures curve == Some(BezierCurve(MakeBezier(p1x, p1y, p2x, p2y)))
      ensures value == old(value) && inTangent == old(inTangent) && outTangent == old(outTangent)
    {
      curve := Some(BezierCurve(MakeBezier(p1x, p1y, p2x, p2y)));
    }

    /** `build()`: a keyframe needs a value and a curve; the tangents stay
      * optional. */
    method Build() returns (r: Result<Keyframe<T>>)
      ensures r.Ok? <==> value.Some? && curve.Some?
      ensures value.None? ==> r == Err(NullPointer("value"))
      ensures value.Some? && curve.None? ==> r == Err(NullPointer("curve"))
      ensures r.Ok? ==> r.value == Keyframe(time, value.value, inTangent, outTangent, curve.value)
    {
      if value.None? {
        return Err(NullPointer("value"));
      }
      if curve.None? {
        return Err(NullPointer("curve"));
      }
      r := Ok(Keyframe(time, value.value, inTangent, outTangent, curve.value));
    }
  }

  /** `Keyframe.of(t, v)`: a keyframe with no tangents and the linear curve. */
  method Of<T>(t: real, v: T) returns (k: Keyframe<T>)
    ensures k == KeyframeOf(t, v)
  {
    var b := new KeyframeBuilder<T>.At(t);
    b.SetValue(Some(v));
    var r := b.Build();
    k := r.value;
  }

  /** The value of `Keyframe.of(t, v)`, for use in functions and lemmas. */
  function KeyframeOf<T>(t: real, v: T): Keyframe<T>
  {
    Keyframe(t, v, None, None, DefaultCurve)
  }
}
