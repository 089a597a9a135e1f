/** Timing curves: the four polynomial easings and the cubic Bezier curve with
  * implicit end points (0, 0) and (1, 1), whose x-to-t inversion is a bounded
  * Newton-Raphson iteration. */
module Curves {
  datatype Easing = Linear | EaseIn | EaseOut | EaseInOut

  /** `Easing.map`. */
  function EasingMap(e: Easing, p: real): real
  {
    match e
    case Linear => p
    case EaseIn => p * p
    case EaseOut => var inv := 1.0 - p; 1.0 - inv * inv
    case EaseInOut =>
      if p < 0.5 then 2.0 * p * p
      else var inv := -2.0 * p + 2.0; 1.0 - (inv * inv) / 2.0
  }

  lemma SquareMonotone(a: real, b: real)
    requires 0.0 <= a <= b
    ensures a * a <= b * b
  {
    assert a * a <= a * b by { assert a * (b - a) >= 0.0; }
    assert a * b <= b * b by { assert b * (b - a) >= 0.0; }
  }

  /** Every easing maps the unit interval into itself and fixes its end points. */
  lemma EasingUnitInterval(e: Easing, p: real)
    requires 0.0 <= p <= 1.0
    ensures 0.0 <= EasingMap(e, p) <= 1.0
    ensures EasingMap(e, 0.0) == 0.0 && EasingMap(e, 1.0) == 1.0
  {
    match e
    case Linear =>
    case EaseIn => SquareMonotone(p, 1.0);
    case EaseOut => SquareMonotone(1.0 - p, 1.0);
    case EaseInOut =>
      if p < 0.5 {
        SquareMonotone(p, 0.5);
      } else {
        var inv := -2.0 * p + 2.0;
        SquareMonotone(inv, 1.0);
        SquareMonotone(0.0, inv);
        assert 0.0 <= inv * inv <= 1.0;
        assert EasingMap(e, p) == 1.0 - (inv * inv) / 2.0;
      }
  }

  /** Every easing is non-decreasing on the unit interval. */
  lemma EasingMonotone(e: Easing, p: real, q: real)
    requires 0.0 <= p <= q <= 1.0
    ensures EasingMap(e, p) <= EasingMap(e, q)
  {
    match e
    case Linear =>
    case EaseIn => SquareMonotone(p, q);
    case EaseOut => SquareMonotone(1.0 - q, 1.0 - p);
    case EaseInOut =>
      if q < 0.5 {
        SquareMonotone(p, q);
      } else if p >= 0.5 {
        SquareMonotone(-2.0 * q + 2.0, -2.0 * p + 2.0);
      } else {
        SquareMonotone(p, 0.5);
        SquareMonotone(-2.0 * q + 2.0, 1.0);
      }
  }

  /** The two branches of the in-out easing meet at p = 0.5, both giving 0.5,
    * and the curve is symmetric about that point. */
  lemma EaseInOutJoins(p: real)
    ensures 2.0 * 0.5 * 0.5 == 0.5 && EasingMap(EaseInOut, 0.5) == 0.5
    ensures EasingMap(EaseInOut, 1.0 - p) == 1.0 - EasingMap(EaseInOut, p)
  {
    if p < 0.5 {
      var inv := -2.0 * (1.0 - p) + 2.0;
      assert inv == 2.0 * p;
    } else if p > 0.5 {
      var inv := -2.0 * p + 2.0;
      assert 1.0 - p < 0.5;
      assert 2.0 * (1.0 - p) * (1.0 - p) == (inv * inv) / 2.0;
    }
  }

  /** No easing clamps its input: progress outside [0, 1] is evaluated by the
    * same polynomial. */
  lemma EasingsDoNotClamp()
    ensures EasingMap(Linear, 2.0) == 2.0 && EasingMap(Linear, -1.0) == -1.0
    ensures EasingMap(EaseIn, -1.0) == 1.0 && EasingMap(EaseOut, 2.0) == 0.0
    ensures EasingMap(EaseInOut, 2.0) == -1.0 && EasingMap(EaseInOut, -1.0) == 2.0
  {
  }

  /** A Bezier timing curve: control points (p1x, p1y) and (p2x, p2y). */
  datatype Bezier = Bezier(p1x: real, p1y: real, p2x: real, p2y: real)

  function Clamp01(v: real): (r: real)
    ensures 0.0 <= r <= 1.0
    ensures 0.0 <= v <= 1.0 ==> r == v
    ensures v < 0.0 ==> r == 0.0
    ensures v > 1.0 ==> r == 1.0
  {
    if v < 0.0 then 0.0 else if v > 1.0 then 1.0 else v
  }

  /** The constructor: the x coordinates are clamped to [0, 1] so that the curve
    * is a function of x; the y coordinates are kept (overshoot is allowed). */
  function MakeBezier(p1x: real, p1y: real, p2x: real, p2y: real): (b: Bezier)
    ensures 0.0 <= b.p1x <= 1.0 && 0.0 <= b.p2x <= 1.0
    ensures 0.0 <= p1x <= 1.0 ==> b.p1x == p1x
    ensures 0.0 <= p2x <= 1.0 ==> b.p2x == p2x
    ensures b.p1y == p1y && b.p2y == p2y
  {
    Bezier(Clamp01(p1x), p1y, Clamp01(p2x), p2y)
  }

  /** The cubic Bernstein polynomial with coefficients c0..c3, at parameter t. */
  function CubicBezier(t: real, c0: real, c1: real, c2: real, c3: real): real
  {
    var mt := 1.0 - t;
    c0 * (mt * mt * mt) + 3.0 * c1 * (mt * mt) * t + 3.0 * c2 * mt * (t * t) + c3 * (t * t * t)
  }

  lemma CubicBezierEndPoints(c0: real, c1: real, c2: real, c3: real)
    ensures CubicBezier(0.0, c0, c1, c2, c3) == c0
    ensures CubicBezier(1.0, c0, c1, c2, c3) == c3
  {
  }

  /** The x coordinate of the curve at parameter t, and its derivative. */
  function CurveX(b: Bezier, t: real): real
  {
    CubicBezier(t, 0.0, b.p1x, b.p2x, 1.0)
  }

  function CurveSlopeX(b: Bezier, t: real): real
  {
    3.0 * (1.0 - t) * (1.0 - t) * (b.p1x - 0.0)
      + 6.0 * (1.0 - t) * t * (b.p2x - b.p1x)
      + 3.0 * t * t * (1.0 - b.p2x)
  }

  function Abs(v: real): real { if v < 0.0 then -v else v }

  /** The derivative below which the Newton iteration stops. */
  const SlopeEpsilon: real := 0.000001

  /** The Newton-Raphson iterate after at most `steps` more steps from `t`,
    * stopping early when the slope is too flat to divide by. */
  function Newton(b: Bezier, x: real, t: real, steps: nat): real
    decreases steps
  {
    if steps == 0 then t
    else
      var slope := CurveSlopeX(b, t);
      if Abs(slope) < SlopeEpsilon then t
      else Newton(b, x, t - (CurveX(b, t) - x) / slope, steps - 1)
  }

  /** The number of Newton steps the solver allows. */
  const NewtonSteps: nat := 8

  /** `solveTforX`: eight Newton steps starting from t = x, stopping early when
    * the slope vanishes. */
  method SolveTForX(b: Bezier, x: real) returns (t: real)
    ensures t == Newton(b, x, x, NewtonSteps)
  {
    t := x;
    var i := 0;
    while i < NewtonSteps
      invariant 0 <= i <= NewtonSteps
      invariant Newton(b, x, t, NewtonSteps - i) == Newton(b, x, x, NewtonSteps)
    {
      var xt := CurveX(b, t) - x;
      var slope := CurveSlopeX(b, t);
      if Abs(slope) < SlopeEpsilon {
        break;
      }
      t := t - xt / slope;
      i := i + 1;
    }
  }

  /** `BezierCurve.map`: progress outside (0, 1) is pinned to the end points. */
  function BezierMap(b: Bezier, p: real): real
  {
    if p <= 0.0 then 0.0
    else if p >= 1.0 then 1.0
    else CubicBezier(Newton(b, p, p, NewtonSteps), 0.0, b.p1y, b.p2y, 1.0)
  }

  lemma BezierMapEnds(b: Bezier, p: real)
    ensures p <= 0.0 ==> BezierMap(b, p) == 0.0
    ensures p >= 1.0 ==> BezierMap(b, p) == 1.0
  {
  }

  /** With control x coordinates 1/3 and 2/3 the curve's x is t itself, so the
    * Newton iteration stays at its starting point. */
  lemma {:induction false} NewtonFixedOnUniformX(b: Bezier, x: real, steps: nat)
    requires b.p1x == 1.0 / 3.0 && b.p2x == 2.0 / 3.0
    ensures Newton(b, x, x, steps) == x
    decreases steps
  {
    if steps > 0 {
      assert CurveSlopeX(b, x) == 1.0;
      assert CurveX(b, x) == x;
      assert x - (CurveX(b, x) - x) / CurveSlopeX(b, x) == x;
      NewtonFixedOnUniformX(b, x, steps - 1);
    }
  }

  /** The Bezier curve (1/3, 1/3), (2/3, 2/3) is the linear easing. */
  lemma BezierUniformIsLinear(p: real)
    requires 0.0 <= p <= 1.0
    ensures BezierMap(MakeBezier(1.0 / 3.0, 1.0 / 3.0, 2.0 / 3.0, 2.0 / 3.0), p) == EasingMap(Linear, p)
  {
    var b := MakeBezier(1.0 / 3.0, 1.0 / 3.0, 2.0 / 3.0, 2.0 / 3.0);
    if 0.0 < p < 1.0 {
      NewtonFixedOnUniformX(b, p, NewtonSteps);
      assert CubicBezier(p, 0.0, b.p1y, b.p2y, 1.0) == p;
    }
  }

  /** A keyframe's timing curve: one of the built-in easings or a Bezier curve. */
  datatype Curve = EasingCurve(easing: Easing) | BezierCurve(bezier: Bezier)

  /** `TemporalCurve.map`. */
  function CurveMap(c: Curve, p: real): real
  {
    match c
    case EasingCurve(e) => EasingMap(e, p)
    case BezierCurve(b) => BezierMap(b, p)
  }

  /** Every built-in curve fixes the end points of the unit interval. */
  lemma CurveEndPoints(c: Curve)
    ensures CurveMap(c, 0.0) == 0.0 && CurveMap(c, 1.0) == 1.0
  {
    if c.EasingCurve? {
      EasingUnitInterval(c.easing, 0.0);
    }
  }
}
