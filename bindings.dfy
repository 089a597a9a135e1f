/** The binding layer: a timeline snapshot is written, binding by binding, into
  * a mutable position, scale and rotation seeded from a base transform (and an
  * optional anchor), plus a map of named parameters. */
module Bindings {
  import opened Wrappers
  import opened Geometry
  import opened Anchors
  import opened Values

  // ------------------------------------------------------------ the state

  /** What a `MutableBindingState` holds at one moment. */
  datatype State = State(position: Vec3, scale: Vec3, rotation: Quat, parameters: map<string, Value>)

  /** `BindingResult`: the final transform and the parameters. */
  datatype BindingResult = BindingResult(transform: Transform, parameters: map<string, Value>)

  /** The state a fresh `MutableBindingState` starts from. */
  function InitialState(base: Transform): (r: State)
    ensures r.position == base.position && r.scale == base.scale && r.rotation == base.rotation
    ensures r.parameters == map[]
  {
    State(base.position, base.scale, base.rotation, map[])
  }

  /** `toResult`: `Map.copyOf` refuses a null value, so a parameter holding
    * null makes the result fail. */
  function ResultOf(s: State): (r: Result<BindingResult>)
    ensures r.Ok? <==> forall n :: n in s.parameters ==> s.parameters[n] != Null
    ensures r.Ok? ==> r.value.transform == Transform(s.position, s.rotation, s.scale)
    ensures r.Ok? ==> r.value.parameters == s.parameters
    ensures r.Err? ==> r.failure.NullPointer?
  {
    if Null in s.parameters.Values then Err(NullPointer("parameter value"))
    else Ok(BindingResult(Transform(s.position, s.rotation, s.scale), s.parameters))
  }

  /** No parameter holds null. */
  ghost predicate NoNullParameters(s: State)
  {
    forall n :: n in s.parameters ==> s.parameters[n] != Null
  }

  /** `MutableBindingState`: the components of the transform being built and
    * the parameters written so far. */
  class BindingState {
    var position: Vec3
    var scale: Vec3
    var rotation: Quat
    var parameters: map<string, Value>

    function Current(): State
      reads this
    {
      State(position, scale, rotation, parameters)
    }

    /** Copies the base transform; the base itself is a value and is never
      * changed through the state. */
    constructor (base: Transform)
      ensures Current() == InitialState(base)
    {
      position := base.position;
      scale := base.scale;
      rotation := base.rotation;
      parameters := map[];
    }

    /** `overrideTransform`: position, scale and rotation replaced together. */
    method OverrideTransform(t: Transform)
      modifies this
      ensures Current() == old(Current()).(position := t.position, scale := t.scale, rotation := t.rotation)
    {
      position := t.position;
      scale := t.scale;
      rotation := t.rotation;
    }

    method SetPosition(v: Vec3)
      modifies this
      ensures Current() == old(Current()).(position := v)
    {
      position := v;
    }

    /** `setPositionComponent`: only the named axis changes. */
    method SetPositionComponent(axis: Axis, value: real)
      modifies this
      ensures Current() == old(Current()).(position := WithComponent(old(position), axis, value))
    {
      match axis {
        case X => position := position.(x := value);
        case Y => position := position.(y := value);
        case Z => position := position.(z := value);
      }
    }

    method SetScale(v: Vec3)
      modifies this
      ensures Current() == old(Current()).(scale := v)
    {
      scale := v;
    }

    /** `setScaleComponent`: only the named axis changes. */
    method SetScaleComponent(axis: Axis, value: real)
      modifies this
      ensures Current() == old(Current()).(scale := WithComponent(old(scale), axis, value))
    {
      match axis {
        case X => scale := scale.(x := value);
        case Y => scale := scale.(y := value);
        case Z => scale := scale.(z := value);
      }
    }

    /** `setUniformScale(v)`: every axis becomes v. */
    method SetUniformScale(value: real)
      modifies this
      ensures Current() == old(Current()).(scale := Vec3(value, value, value))
    {
      scale := Vec3(value, value, value);
    }

    method SetRotation(q: Quat)
      modifies this
      ensures Current() == old(Current()).(rotation := q)
    {
      rotation := q;
    }

    /** `applyRotation(delta)`: the delta multiplies on the right. */
    method ApplyRotation(delta: Quat)
      modifies this
      ensures Current() == old(Current()).(rotation := QMul(old(rotation), delta))
    {
      rotation := QMul(rotation, delta);
    }

    /** `setParameter`: a later write under the same name replaces the
      * earlier one. */
    method SetParameter(name: string, value: Value)
      modifies this
      ensures Current() == old(Current()).(parameters := old(parameters)[name := value])
    {
      parameters := parameters[name := value];
    }

    /** `toResult`: a snapshot of the state, which later changes cannot
      * reach. */
    method ToResult() returns (r: Result<BindingResult>)
      ensures r == ResultOf(Current())
    {
      if Null in parameters.Values {
        return Err(NullPointer("parameter value"));
      }
      r := Ok(BindingResult(Transform(position, rotation, scale), parameters));
    }
  }

  // ---------------------------------------------------- transform binding

  /** One `rotateAxisAngle` registration. */
  datatype AxisAngle = AxisAngle(axis: ValueProvider, angle: ValueProvider)

  /** `TransformBinding`: an optional provider per slot, a provider per axis
    * for the per-axis slots, and the axis-angle rotations in registration
    * order. */
  datatype TransformBinding = TransformBinding(
    transform: Option<ValueProvider>,
    position: Option<ValueProvider>,
    positionAxes: map<Axis, ValueProvider>,
    scale: Option<ValueProvider>,
    uniformScale: Option<ValueProvider>,
    scaleAxes: map<Axis, ValueProvider>,
    rotation: Option<ValueProvider>,
    euler: Option<ValueProvider>,
    eulerAxes: map<Axis, ValueProvider>,
    axisAngles: seq<AxisAngle>)

  /** A binding with every slot empty (what a fresh builder builds). */
  const EmptyTransformBinding: TransformBinding :=
    TransformBinding(None, None, map[], None, None, map[], None, None, map[], [])

  /** The value of an optional provider: an absent provider reads as null. */
  function Read(vp: Option<ValueProvider>, s: Option<Snapshot>): (r: Value)
    ensures vp.None? ==> r == Null
    ensures vp.Some? ==> r == Provide(vp.value, s)
  {
    if vp.None? then Null else Provide(vp.value, s)
  }

  /** The number the provider of axis `a` yields, if there is one. */
  function AxisValue(m: map<Axis, ValueProvider>, s: Option<Snapshot>, a: Axis): Option<real>
  {
    if a in m then AsDouble(Provide(m[a], s)) else None
  }

  /** `v` with each axis in `done` whose provider yields a number replaced by
    * that number. */
  function OverrideAxes(v: Vec3, m: map<Axis, ValueProvider>, s: Option<Snapshot>, done: set<Axis>): (r: Vec3)
    ensures forall a: Axis :: (Component(r, a) ==
      if a in done && AxisValue(m, s, a).Some? then AxisValue(m, s, a).value else Component(v, a))
  {
    Vec3(if X in done && AxisValue(m, s, X).Some? then AxisValue(m, s, X).value else v.x,
         if Y in done && AxisValue(m, s, Y).Some? then AxisValue(m, s, Y).value else v.y,
         if Z in done && AxisValue(m, s, Z).Some? then AxisValue(m, s, Z).value else v.z)
  }

  /** Handling one more axis replaces just that component (when its provider
    * yields a number). */
  lemma OverrideOneMore(v: Vec3, m: map<Axis, ValueProvider>, s: Option<Snapshot>, done: set<Axis>, a: Axis)
    requires a !in done
    ensures var c := AxisValue(m, s, a);
      OverrideAxes(v, m, s, done + {a}) ==
        if c.Some? then WithComponent(OverrideAxes(v, m, s, done), a, c.value) else OverrideAxes(v, m, s, done)
  {
  }

  /** The Euler angles to apply, or None when neither the vector provider nor
    * any axis provider yields a value: they start from the vector (or zero)
    * and each axis value replaces its component. */
  function EulerAngles(tb: TransformBinding, s: Option<Snapshot>): Option<Vec3>
  {
    var base := AsVector(Read(tb.euler, s));
    var angles := OverrideAxes(base.GetOr(Zero), tb.eulerAxes, s, tb.eulerAxes.Keys);
    if base.Some? || exists a: Axis :: a in tb.eulerAxes && AxisValue(tb.eulerAxes, s, a).Some?
    then Some(angles) else None
  }

  /** `quaternionFromEuler`: rotate about Y, then X, then Z, each one
    * multiplied on the right. */
  function EulerQuat(trig: Trig, e: Vec3): Quat
  {
    QMul(QMul(trig.axisRotation(Y, e.y), trig.axisRotation(X, e.x)), trig.axisRotation(Z, e.z))
  }

  /** The squared-length threshold under which an axis counts as zero. */
  const AxisEpsilon: real := 0.000000000001

  /** `AxisAngleRotation.apply`: the rotation to apply, or None when the axis
    * or angle is missing, the angle is zero, or the axis is too short. */
  function AxisAngleDelta(aa: AxisAngle, s: Option<Snapshot>, trig: Trig): (r: Option<Quat>)
    ensures r.Some? <==>
      && AsVector(Provide(aa.axis, s)).Some? && AsDouble(Provide(aa.angle, s)).Some?
      && Provide(aa.angle, s).d != 0.0 && Provide(aa.axis, s).v.LengthSquared() > AxisEpsilon
    ensures r.Some? ==> r.value == trig.axisAngle(Provide(aa.angle, s).d, trig.normalize(Provide(aa.axis, s).v))
  {
    var axis := AsVector(Provide(aa.axis, s));
    var angle := AsDouble(Provide(aa.angle, s));
    if axis.Some? && angle.Some? && angle.value != 0.0 && axis.value.LengthSquared() > AxisEpsilon
    then Some(trig.axisAngle(angle.value, trig.normalize(axis.value)))
    else None
  }

  /** The axis-angle rotations applied to `q` in registration order. */
  function ApplyAxisAngles(q: Quat, aas: seq<AxisAngle>, s: Option<Snapshot>, trig: Trig): Quat
  {
    if |aas| == 0 then q
    else
      var before := ApplyAxisAngles(q, aas[..|aas| - 1], s, trig);
      var d := AxisAngleDelta(aas[|aas| - 1], s, trig);
      if d.Some? then QMul(before, d.value) else before
  }

  /** The position after the override, vector and per-axis slots. */
  function BoundPosition(tb: TransformBinding, s: Option<Snapshot>, st: State): Vec3
  {
    var t := AsTransform(Read(tb.transform, s));
    var p := AsVector(Read(tb.position, s));
    var p1 := if t.Some? then t.value.position else st.position;
    var p2 := if p.Some? then p.value else p1;
    OverrideAxes(p2, tb.positionAxes, s, tb.positionAxes.Keys)
  }

  /** The scale after the override, vector, uniform and per-axis slots. */
  function BoundScale(tb: TransformBinding, s: Option<Snapshot>, st: State): Vec3
  {
    var t := AsTransform(Read(tb.transform, s));
    var v := AsVector(Read(tb.scale, s));
    var u := AsDouble(Read(tb.uniformScale, s));
    var s1 := if t.Some? then t.value.scale else st.scale;
    var s2 := if v.Some? then v.value else s1;
    var s3 := if u.Some? then Vec3(u.value, u.value, u.value) else s2;
    OverrideAxes(s3, tb.scaleAxes, s, tb.scaleAxes.Keys)
  }

  /** The rotation after the override, then the quaternion, the Euler angles
    * and the axis-angle rotations, each multiplied on the right. */
  function BoundRotation(tb: TransformBinding, s: Option<Snapshot>, trig: Trig, st: State): Quat
  {
    var t := AsTransform(Read(tb.transform, s));
    var q := AsQuat(Read(tb.rotation, s));
    var e := EulerAngles(tb, s);
    var r1 := if t.Some? then t.value.rotation else st.rotation;
    var r2 := if q.Some? then QMul(r1, q.value) else r1;
    var r3 := if e.Some? then QMul(r2, EulerQuat(trig, e.value)) else r2;
    ApplyAxisAngles(r3, tb.axisAngles, s, trig)
  }

  /** `TransformBinding.apply` on a state: parameters are left alone. */
  function ApplyTransform(tb: TransformBinding, s: Option<Snapshot>, trig: Trig, st: State): (r: State)
    ensures r.parameters == st.parameters
  {
    State(BoundPosition(tb, s, st), BoundScale(tb, s, st), BoundRotation(tb, s, trig, st), st.parameters)
  }

  /** Each position axis comes from its own provider if it yields a number,
    * else from the position vector, else from the override transform, else
    * it keeps its value. */
  lemma PositionPrecedence(tb: TransformBinding, s: Option<Snapshot>, trig: Trig, st: State, a: Axis)
    ensures var r := ApplyTransform(tb, s, trig, st).position;
      var t := AsTransform(Read(tb.transform, s));
      var p := AsVector(Read(tb.position, s));
      Component(r, a) ==
        if AxisValue(tb.positionAxes, s, a).Some? then AxisValue(tb.positionAxes, s, a).value
        else if p.Some? then Component(p.value, a)
        else if t.Some? then Component(t.value.position, a)
        else Component(st.position, a)
  {
  }

  /** A per-axis scale beats the uniform scale, which beats the scale vector,
    * which beats the override transform. */
  lemma ScalePrecedence(tb: TransformBinding, s: Option<Snapshot>, trig: Trig, st: State, a: Axis)
    ensures var r := ApplyTransform(tb, s, trig, st).scale;
      var t := AsTransform(Read(tb.transform, s));
      var v := AsVector(Read(tb.scale, s));
      var u := AsDouble(Read(tb.uniformScale, s));
      Component(r, a) ==
        if AxisValue(tb.scaleAxes, s, a).Some? then AxisValue(tb.scaleAxes, s, a).value
        else if u.Some? then u.value
        else if v.Some? then Component(v.value, a)
        else if t.Some? then Component(t.value.scale, a)
        else Component(st.scale, a)
  {
    var t := AsTransform(Read(tb.transform, s));
    var v := AsVector(Read(tb.scale, s));
    var u := AsDouble(Read(tb.uniformScale, s));
    var s1 := if t.Some? then t.value.scale else st.scale;
    var s2 := if v.Some? then v.value else s1;
    var s3 := if u.Some? then Vec3(u.value, u.value, u.value) else s2;
    assert ApplyTransform(tb, s, trig, st).scale == OverrideAxes(s3, tb.scaleAxes, s, tb.scaleAxes.Keys);
    if u.Some? {
      assert Component(s3, a) == u.value by { match a { case X => case Y => case Z => } }
    }
  }

  /** The product of a list of rotations, left to right. */
  function Product(qs: seq<Quat>): Quat
  {
    if |qs| == 0 then IdentityQuat else QMul(Product(qs[..|qs| - 1]), qs[|qs| - 1])
  }

  /** The rotations the axis-angle registrations contribute, identity for a
    * skipped one. */
  function AxisAngleFactors(aas: seq<AxisAngle>, s: Option<Snapshot>, trig: Trig): (r: seq<Quat>)
    ensures |r| == |aas|
  {
    if |aas| == 0 then []
    else AxisAngleFactors(aas[..|aas| - 1], s, trig) + [AxisAngleDelta(aas[|aas| - 1], s, trig).GetOr(IdentityQuat)]
  }

  lemma {:induction false} ProductOfAxisAngles(q0: Quat, prefix: seq<Quat>, aas: seq<AxisAngle>, s: Option<Snapshot>, trig: Trig)
    requires Product(prefix) == q0
    ensures ApplyAxisAngles(q0, aas, s, trig) == Product(prefix + AxisAngleFactors(aas, s, trig))
  {
    if |aas| == 0 {
      assert prefix + AxisAngleFactors(aas, s, trig) == prefix;
    } else {
      var init := aas[..|aas| - 1];
      ProductOfAxisAngles(q0, prefix, init, s, trig);
      var fs := prefix + AxisAngleFactors(aas, s, trig);
      assert fs[..|fs| - 1] == prefix + AxisAngleFactors(init, s, trig);
      var d := AxisAngleDelta(aas[|aas| - 1], s, trig);
      if d.None? {
        QMulIdentity(ApplyAxisAngles(q0, init, s, trig));
      }
    }
  }

  /** The final rotation is R0 * Q * E * A1 * ... * An: the rotation after the
    * override, the quaternion slot, the Euler rotation and the axis-angle
    * rotations, with identity standing in for each slot that yields
    * nothing. */
  lemma RotationOrder(tb: TransformBinding, s: Option<Snapshot>, trig: Trig, st: State)
    ensures var t := AsTransform(Read(tb.transform, s));
      var q := AsQuat(Read(tb.rotation, s));
      var e := EulerAngles(tb, s);
      var r0 := if t.Some? then t.value.rotation else st.rotation;
      var qe := if e.Some? then EulerQuat(trig, e.value) else IdentityQuat;
      ApplyTransform(tb, s, trig, st).rotation ==
        Product([r0, q.GetOr(IdentityQuat), qe] + AxisAngleFactors(tb.axisAngles, s, trig))
  {
    var t := AsTransform(Read(tb.transform, s));
    var q := AsQuat(Read(tb.rotation, s));
    var e := EulerAngles(tb, s);
    var r0 := if t.Some? then t.value.rotation else st.rotation;
    var qe := if e.Some? then EulerQuat(trig, e.value) else IdentityQuat;
    var r2 := if q.Some? then QMul(r0, q.value) else r0;
    var r3 := if e.Some? then QMul(r2, EulerQuat(trig, e.value)) else r2;
    QMulIdentity(r0);
    QMulIdentity(r2);
    var prefix := [r0, q.GetOr(IdentityQuat), qe];
    assert prefix[..2][..1] == [r0];
    assert Product([r0]) == QMul(IdentityQuat, r0);
    assert Product(prefix[..2]) == r2;
    assert Product(prefix) == r3;
    ProductOfAxisAngles(r3, prefix, tb.axisAngles, s, trig);
  }

  /** A binding whose every slot is empty changes nothing. */
  lemma EmptyBindingChangesNothing(s: Option<Snapshot>, trig: Trig, st: State)
    ensures ApplyTransform(EmptyTransformBinding, s, trig, st) == st
  {
    var r := ApplyTransform(EmptyTransformBinding, s, trig, st);
    assert r.position == st.position by {
      assert OverrideAxes(st.position, map[], s, {}) == st.position;
    }
    assert r.scale == st.scale by {
      assert OverrideAxes(st.scale, map[], s, {}) == st.scale;
    }
  }

  /** Sets, one axis at a time in whatever order the map yields them, each
    * position axis whose provider yields a number. */
  method ApplyPositionAxes(m: map<Axis, ValueProvider>, s: Option<Snapshot>, state: BindingState)
    modifies state
    ensures state.Current() == old(state.Current()).(position := OverrideAxes(old(state.position), m, s, m.Keys))
  {
    ghost var start := state.position;
    var remaining := m.Keys;
    while remaining != {}
      invariant remaining <= m.Keys
      invariant state.Current() == old(state.Current()).(position := OverrideAxes(start, m, s, m.Keys - remaining))
      decreases remaining
    {
      var a :| a in remaining;
      ghost var done := m.Keys - remaining;
      OverrideOneMore(start, m, s, done, a);
      assert done + {a} == m.Keys - (remaining - {a});
      var component := AsDouble(Provide(m[a], s));
      if component.Some? {
        state.SetPositionComponent(a, component.value);
      }
      remaining := remaining - {a};
    }
  }

  /** The same for the scale axes. */
  method ApplyScaleAxes(m: map<Axis, ValueProvider>, s: Option<Snapshot>, state: BindingState)
    modifies state
    ensures state.Current() == old(state.Current()).(scale := OverrideAxes(old(state.scale), m, s, m.Keys))
  {
    ghost var start := state.scale;
    var remaining := m.Keys;
    while remaining != {}
      invariant remaining <= m.Keys
      invariant state.Current() == old(state.Current()).(scale := OverrideAxes(start, m, s, m.Keys - remaining))
      decreases remaining
    {
      var a :| a in remaining;
      ghost var done := m.Keys - remaining;
      OverrideOneMore(start, m, s, done, a);
      assert done + {a} == m.Keys - (remaining - {a});
      var component := AsDouble(Provide(m[a], s));
      if component.Some? {
        state.SetScaleComponent(a, component.value);
      }
      remaining := remaining - {a};
    }
  }

  /** `applyEulerRotation`: gathers the angles, then applies their rotation
    * if any value was present. */
  method ApplyEulerRotation(tb: TransformBinding, s: Option<Snapshot>, trig: Trig, state: BindingState)
    modifies state
    ensures var e := EulerAngles(tb, s);
      state.Current() == if e.Some? then old(state.Current()).(rotation := QMul(old(state.rotation), EulerQuat(trig, e.value)))
                         else old(state.Current())
  {
    var x, y, z := 0.0, 0.0, 0.0;
    var hasValue := false;
    var base := AsVector(Read(tb.euler, s));
    if base.Some? {
      x, y, z := base.value.x, base.value.y, base.value.z;
      hasValue := true;
    }
    ghost var start := Vec3(x, y, z);
    assert start == base.GetOr(Zero);
    var m := tb.eulerAxes;
    var remaining := m.Keys;
    while remaining != {}
      invariant remaining <= m.Keys
      invariant Vec3(x, y, z) == OverrideAxes(start, m, s, m.Keys - remaining)
      invariant hasValue <==> base.Some? || exists a: Axis :: a in m.Keys - remaining && AxisValue(m, s, a).Some?
      invariant unchanged(state)
      decreases remaining
    {
      var a :| a in remaining;
      ghost var done := m.Keys - remaining;
      OverrideOneMore(start, m, s, done, a);
      assert done + {a} == m.Keys - (remaining - {a});
      var value := AsDouble(Provide(m[a], s));
      if value.Some? {
        assert AxisValue(m, s, a).Some?;
        hasValue := true;
        match a {
          case X => x := value.value;
          case Y => y := value.value;
          case Z => z := value.value;
        }
      }
      remaining := remaining - {a};
    }
    assert m.Keys - remaining == m.Keys;
    assert Vec3(x, y, z) == OverrideAxes(base.GetOr(Zero), tb.eulerAxes, s, tb.eulerAxes.Keys);
    if hasValue {
      state.ApplyRotation(EulerQuat(trig, Vec3(x, y, z)));
    }
  }

  /** The axis-angle rotations, in registration order. */
  method ApplyAxisAngleRotations(aas: seq<AxisAngle>, s: Option<Snapshot>, trig: Trig, state: BindingState)
    modifies state
    ensures state.Current() == old(state.Current()).(rotation := ApplyAxisAngles(old(state.rotation), aas, s, trig))
  {
    var i := 0;
    while i < |aas|
      invariant 0 <= i <= |aas|
      invariant state.Current() == old(state.Current()).(rotation := ApplyAxisAngles(old(state.rotation), aas[..i], s, trig))
    {
      assert aas[..i + 1][..i] == aas[..i];
      var delta := AxisAngleDelta(aas[i], s, trig);
      if delta.Some? {
        state.ApplyRotation(delta.value);
      }
      i := i + 1;
    }
    assert aas[..|aas|] == aas;
  }

  /** `TransformBinding.apply`: override, position, position axes, scale
    * vector, uniform scale, scale axes, quaternion, Euler angles, axis-angle
    * rotations. The per-axis maps are visited in an arbitrary order. */
  method ApplyTransformBinding(tb: TransformBinding, s: Option<Snapshot>, trig: Trig, state: BindingState)
    modifies state
    ensures state.Current() == ApplyTransform(tb, s, trig, old(state.Current()))
  {
    var t := AsTransform(Read(tb.transform, s));
    if t.Some? {
      state.OverrideTransform(t.value);
    }
    ApplyPositionSlots(tb, s, state);
    ApplyScaleSlots(tb, s, state);
    ApplyRotationSlots(tb, s, trig, state);
  }

  /** The position vector, then the position axes. */
  method ApplyPositionSlots(tb: TransformBinding, s: Option<Snapshot>, state: BindingState)
    modifies state
    ensures var p := AsVector(Read(tb.position, s));
      state.Current() == old(state.Current()).(position :=
        OverrideAxes(if p.Some? then p.value else old(state.position), tb.positionAxes, s, tb.positionAxes.Keys))
  {
    var p := AsVector(Read(tb.position, s));
    if p.Some? {
      state.SetPosition(p.value);
    }
    ApplyPositionAxes(tb.positionAxes, s, state);
  }

  /** The scale vector, then the uniform scale, then the scale axes. */
  method ApplyScaleSlots(tb: TransformBinding, s: Option<Snapshot>, state: BindingState)
    modifies state
    ensures var v := AsVector(Read(tb.scale, s));
      var u := AsDouble(Read(tb.uniformScale, s));
      var s2 := if v.Some? then v.value else old(state.scale);
      state.Current() == old(state.Current()).(scale :=
        OverrideAxes(if u.Some? then Vec3(u.value, u.value, u.value) else s2, tb.scaleAxes, s, tb.scaleAxes.Keys))
  {
    var v := AsVector(Read(tb.scale, s));
    if v.Some? {
      state.SetScale(v.value);
    }
    var u := AsDouble(Read(tb.uniformScale, s));
    if u.Some? {
      state.SetUniformScale(u.value);
    }
    ApplyScaleAxes(tb.scaleAxes, s, state);
  }

  /** The quaternion, then the Euler angles, then the axis-angle rotations. */
  method ApplyRotationSlots(tb: TransformBinding, s: Option<Snapshot>, trig: Trig, state: BindingState)
    modifies state
    ensures var q := AsQuat(Read(tb.rotation, s));
      var e := EulerAngles(tb, s);
      var r2 := if q.Some? then QMul(old(state.rotation), q.value) else old(state.rotation);
      var r3 := if e.Some? then QMul(r2, EulerQuat(trig, e.value)) else r2;
      state.Current() == old(state.Current()).(rotation := ApplyAxisAngles(r3, tb.axisAngles, s, trig))
  {
    var q := AsQuat(Read(tb.rotation, s));
    if q.Some? {
      state.ApplyRotation(q.value);
    }
    ApplyEulerRotation(tb, s, trig, state);
    ApplyAxisAngleRotations(tb.axisAngles, s, trig, state);
  }

  // ---------------------------------------------------- parameter binding

  /** `ParameterBinding`: a named parameter fed by a provider. */
  datatype ParameterBinding = ParameterBinding(name: string, provider: ValueProvider)

  /** The constructor: a null name fails on the blank check, a blank name is
    * refused, and so is a null provider. */
  function MakeParameterBinding(name: Option<string>, provider: Option<ValueProvider>): (r: Result<ParameterBinding>)
    ensures r.Ok? <==> name.Some? && !IsBlank(name.value) && provider.Some?
    ensures r.Ok? ==> r.value == ParameterBinding(name.value, provider.value)
    ensures name.Some? && IsBlank(name.value) ==> r.Err? && r.failure.IllegalArgument?
    ensures (name.None? || provider.None?) && r.Err? ==> r.failure.NullPointer? || r.failure.IllegalArgument?
    ensures name.None? ==> r == Err(NullPointer("name"))
  {
    if name.None? then Err(NullPointer("name"))
    else if IsBlank(name.value) then Err(IllegalArgument("Parameter name must not be blank"))
    else if provider.None? then Err(NullPointer("valueProvider"))
    else Ok(ParameterBinding(name.value, provider.value))
  }

  /** `ParameterBinding.apply` on a state: a non-null value is written under
    * the name; a null value changes nothing; the transform is never
    * touched. */
  function ApplyParameter(pb: ParameterBinding, s: Option<Snapshot>, st: State): (r: State)
    ensures r.position == st.position && r.scale == st.scale && r.rotation == st.rotation
    ensures Provide(pb.provider, s) == Null ==> r == st
    ensures Provide(pb.provider, s) != Null ==>
      r.parameters.Keys == st.parameters.Keys + {pb.name} && r.parameters[pb.name] == Provide(pb.provider, s)
    ensures forall n :: n != pb.name && n in st.parameters ==> n in r.parameters && r.parameters[n] == st.parameters[n]
  {
    var v := Provide(pb.provider, s);
    if v == Null then st else st.(parameters := st.parameters[pb.name := v])
  }

  method ApplyParameterBinding(pb: ParameterBinding, s: Option<Snapshot>, state: BindingState)
    modifies state
    ensures state.Current() == ApplyParameter(pb, s, old(state.Current()))
  {
    var value := Provide(pb.provider, s);
    if value != Null {
      state.SetParameter(pb.name, value);
    }
  }

  // ---------------------------------------------------- timeline bindings

  /** One entry of the binding list. */
  datatype Binding = TransformStep(tb: TransformBinding) | ParameterStep(pb: ParameterBinding)

  function ApplyBinding(b: Binding, s: Option<Snapshot>, trig: Trig, st: State): State
  {
    match b
    case TransformStep(tb) => ApplyTransform(tb, s, trig, st)
    case ParameterStep(pb) => ApplyParameter(pb, s, st)
  }

  /** The bindings applied in list order. */
  function ApplyBindings(bs: seq<Binding>, s: Option<Snapshot>, trig: Trig, st: State): State
  {
    if |bs| == 0 then st
    else ApplyBinding(bs[|bs| - 1], s, trig, ApplyBindings(bs[..|bs| - 1], s, trig, st))
  }

  /** A transform binding and a parameter binding touch disjoint parts of the
    * state, so they commute. */
  lemma TransformAndParameterCommute(tb: TransformBinding, pb: ParameterBinding, s: Option<Snapshot>, trig: Trig, st: State)
    ensures ApplyTransform(tb, s, trig, ApplyParameter(pb, s, st)) == ApplyParameter(pb, s, ApplyTransform(tb, s, trig, st))
  {
    var p := ApplyParameter(pb, s, st);
    assert BoundPosition(tb, s, p) == BoundPosition(tb, s, st);
    assert BoundScale(tb, s, p) == BoundScale(tb, s, st);
    assert BoundRotation(tb, s, trig, p) == BoundRotation(tb, s, trig, st);
  }

  /** Bindings never write null parameters. */
  lemma {:induction false} ApplyBindingsNoNull(bs: seq<Binding>, s: Option<Snapshot>, trig: Trig, st: State)
    requires NoNullParameters(st)
    ensures NoNullParameters(ApplyBindings(bs, s, trig, st))
  {
    if |bs| > 0 {
      ApplyBindingsNoNull(bs[..|bs| - 1], s, trig, st);
    }
  }

  /** `TimelineBindings`: the base transform, the optional anchor provider and
    * the binding list. */
  datatype TimelineBindings = TimelineBindings(transform: Transform, anchor: Option<ValueProvider>, bindings: seq<Binding>)

  /** The seed transform of `evaluate`: the base composed with the anchor's
    * current transform (base as parent), or the base alone when there is no
    * anchor, it yields null, or its target is gone. */
  function Seed(tbs: TimelineBindings, s: Option<Snapshot>, world: World, trig: Trig): Transform
  {
    var provider := AsAnchor(Read(tbs.anchor, s));
    if provider.None? then tbs.transform
    else
      var dynamic := Resolve(provider.value, world, trig);
      if dynamic.None? then tbs.transform else Compose(tbs.transform, dynamic.value)
  }

  lemma SeedSpec(tbs: TimelineBindings, s: Option<Snapshot>, world: World, trig: Trig)
    ensures AsAnchor(Read(tbs.anchor, s)).None? ==> Seed(tbs, s, world, trig) == tbs.transform
    ensures tbs.anchor.None? ==> Seed(tbs, s, world, trig) == tbs.transform
    ensures var p := AsAnchor(Read(tbs.anchor, s));
      p.Some? && Resolve(p.value, world, trig).None? ==> Seed(tbs, s, world, trig) == tbs.transform
    ensures var p := AsAnchor(Read(tbs.anchor, s));
      p.Some? && Resolve(p.value, world, trig).Some? ==>
        Seed(tbs, s, world, trig) == Compose(tbs.transform, Resolve(p.value, world, trig).value)
  {
  }

  /** What `evaluate` returns: the bindings applied in order to a fresh state
    * seeded from `Seed`. It never fails: no binding writes a null
    * parameter. */
  function Evaluate(tbs: TimelineBindings, s: Option<Snapshot>, world: World, trig: Trig): (r: Result<BindingResult>)
    ensures r.Ok?
  {
    var st := InitialState(Seed(tbs, s, world, trig));
    ApplyBindingsNoNull(tbs.bindings, s, trig, st);
    ResultOf(ApplyBindings(tbs.bindings, s, trig, st))
  }

  /** `evaluate`: seed a fresh state and run every binding on it in list
    * order; the bindings value itself is never changed. */
  method EvaluateBindings(tbs: TimelineBindings, s: Option<Snapshot>, world: World, trig: Trig) returns (r: Result<BindingResult>)
    ensures r == Evaluate(tbs, s, world, trig)
  {
    var state := new BindingState(Seed(tbs, s, world, trig));
    ghost var st0 := state.Current();
    var i := 0;
    while i < |tbs.bindings|
      invariant 0 <= i <= |tbs.bindings|
      invariant state.Current() == ApplyBindings(tbs.bindings[..i], s, trig, st0)
    {
      assert tbs.bindings[..i + 1][..i] == tbs.bindings[..i];
      match tbs.bindings[i] {
        case TransformStep(tb) => ApplyTransformBinding(tb, s, trig, state);
        case ParameterStep(pb) => ApplyParameterBinding(pb, s, state);
      }
      i := i + 1;
    }
    assert tbs.bindings[..|tbs.bindings|] == tbs.bindings;
    r := state.ToResult();
  }
}
