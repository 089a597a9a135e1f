/** The builders of the binding layer: `TransformBinding.Builder`, which
  * collects one provider per transform slot, and `TimelineBindingsBuilder`,
  * which adds the base transform, the anchor and the parameter bindings, and
  * appends the transform binding on its first `build`. */
module BindingBuilders {
  import opened Wrappers
  import opened Geometry
  import opened Anchors
  import opened Values
  import opened Bindings

  /** `TransformBinding.Builder`: a later call for the same slot (or the same
    * axis of a per-axis slot) replaces the earlier provider; axis-angle
    * rotations accumulate in call order. */
  class TransformBindingBuilder {
    var transform: Option<ValueProvider>
    var position: Option<ValueProvider>
    var positionAxes: map<Axis, ValueProvider>
    var scale: Option<ValueProvider>
    var uniformScale: Option<ValueProvider>
    var scaleAxes: map<Axis, ValueProvider>
    var rotation: Option<ValueProvider>
    var euler: Option<ValueProvider>
    var eulerAxes: map<Axis, ValueProvider>
    var axisAngles: seq<AxisAngle>

    /** The binding `build` would return now. */
    function Draft(): TransformBinding
      reads this
    {
      TransformBinding(transform, position, positionAxes, scale, uniformScale, scaleAxes,
                       rotation, euler, eulerAxes, axisAngles)
    }

    constructor ()
      ensures Draft() == EmptyTransformBinding
    {
      transform, position, positionAxes := None, None, map[];
      scale, uniformScale, scaleAxes := None, None, map[];
      rotation, euler, eulerAxes := None, None, map[];
      axisAngles := [];
    }

    method SetTransform(vp: ValueProvider)
      modifies this
      ensures Draft() == old(Draft()).(transform := Some(vp))
    {
      transform := Some(vp);
    }

    method SetPosition(vp: ValueProvider)
      modifies this
      ensures Draft() == old(Draft()).(position := Some(vp))
    {
      position := Some(vp);
    }

    method SetPositionComponent(axis: Axis, vp: ValueProvider)
      modifies this
      ensures Draft() == old(Draft()).(positionAxes := old(positionAxes)[axis := vp])
    {
      positionAxes := positionAxes[axis := vp];
    }

    method SetScale(vp: ValueProvider)
      modifies this
      ensures Draft() == old(Draft()).(scale := Some(vp))
    {
      scale := Some(vp);
    }

    method SetUniformScale(vp: ValueProvider)
      modifies this
      ensures Draft() == old(Draft()).(uniformScale := Some(vp))
    {
      uniformScale := Some(vp);
    }

    method SetScaleComponent(axis: Axis, vp: ValueProvider)
      modifies this
      ensures Draft() == old(Draft()).(scaleAxes := old(scaleAxes)[axis := vp])
    {
      scaleAxes := scaleAxes[axis := vp];
    }

    method SetRotation(vp: ValueProvider)
      modifies this
      ensures Draft() == old(Draft()).(rotation := Some(vp))
    {
      rotation := Some(vp);
    }

    method SetRotationEuler(vp: ValueProvider)
      modifies this
      ensures Draft() == old(Draft()).(euler := Some(vp))
    {
      euler := Some(vp);
    }

    /** `rotationX`, `rotationY` and `rotationZ`: one Euler axis. */
    method SetRotationComponent(axis: Axis, vp: ValueProvider)
      modifies this
      ensures Draft() == old(Draft()).(eulerAxes := old(eulerAxes)[axis := vp])
    {
      eulerAxes := eulerAxes[axis := vp];
    }

    method RotateAxisAngle(axis: ValueProvider, angle: ValueProvider)
      modifies this
      ensures Draft() == old(Draft()).(axisAngles := old(axisAngles) + [AxisAngle(axis, angle)])
    {
      axisAngles := axisAngles + [AxisAngle(axis, angle)];
    }

    /** `build`: a copy of the slots; later calls on the builder do not reach
      * it. */
    method Build() returns (r: TransformBinding)
      ensures r == Draft()
    {
      r := TransformBinding(transform, position, positionAxes, scale, uniformScale, scaleAxes,
                            rotation, euler, eulerAxes, axisAngles);
    }
  }

  /** The number of transform bindings in a binding list. */
  function TransformStepCount(bs: seq<Binding>): nat
  {
    if |bs| == 0 then 0
    else TransformStepCount(bs[..|bs| - 1]) + (if bs[|bs| - 1].TransformStep? then 1 else 0)
  }

  lemma TransformStepCountAppend(bs: seq<Binding>, b: Binding)
    ensures TransformStepCount(bs + [b]) == TransformStepCount(bs) + (if b.TransformStep? then 1 else 0)
  {
    assert (bs + [b])[..|bs|] == bs;
  }

  /** A value provider that always yields `v` (`ConstantValue`). */
  function ConstantOf(v: Value): (r: ValueProvider)
    ensures forall s :: Provide(r, s) == v
  {
    Constant(v)
  }

  /** `TimelineBindingsBuilder`. */
  class TimelineBindingsBuilder {
    var transform: Transform
    var anchor: Option<ValueProvider>
    var bindings: seq<Binding>
    var transformBindingAdded: bool
    const transformBuilder: TransformBindingBuilder

    /** Exactly one transform binding once `build` has run, none before, and
      * every parameter binding has a name that is not blank. */
    ghost predicate Valid()
      reads this
    {
      && TransformStepCount(bindings) == (if transformBindingAdded then 1 else 0)
      && forall i :: 0 <= i < |bindings| && bindings[i].ParameterStep? ==> !IsBlank(bindings[i].pb.name)
    }

    /** The base transform starts as the identity, with no anchor, no
      * bindings and an empty transform builder. */
    constructor ()
      ensures Valid() && fresh(transformBuilder)
      ensures transform == Identity && anchor == None && bindings == [] && !transformBindingAdded
      ensures transformBuilder.Draft() == EmptyTransformBinding
    {
      transform := Identity;
      anchor := None;
      bindings := [];
      transformBindingAdded := false;
      transformBuilder := new TransformBindingBuilder();
    }

    /** `setTransform`: a null transform is refused. */
    method SetTransform(t: Option<Transform>) returns (failure: Option<Failure>)
      modifies this
      ensures failure == if t.None? then Some(NullPointer("transform")) else None
      ensures transform == if t.None? then old(transform) else t.value
      ensures anchor == old(anchor) && bindings == old(bindings) && transformBindingAdded == old(transformBindingAdded)
    {
      if t.None? {
        return Some(NullPointer("transform"));
      }
      transform := t.value;
      failure := None;
    }

    /** `setAnchor`: a constant anchor; replaces any earlier anchor. */
    method SetAnchor(p: Provider)
      modifies this
      ensures anchor == Some(ConstantOf(Anchor(p)))
      ensures transform == old(transform) && bindings == old(bindings) && transformBindingAdded == old(transformBindingAdded)
    {
      anchor := Some(ConstantOf(Anchor(p)));
    }

    /** `bindAnchor`: an anchor read from a property; replaces any earlier
      * anchor. */
    method BindAnchor(property: Property)
      modifies this
      ensures anchor == Some(AnimatedNoDefault(property))
      ensures transform == old(transform) && bindings == old(bindings) && transformBindingAdded == old(transformBindingAdded)
    {
      anchor := Some(AnimatedNoDefault(property));
    }

    /** Appends a parameter binding, or reports the constructor's failure and
      * changes nothing. */
    method AddParameter(name: Option<string>, provider: ValueProvider) returns (failure: Option<Failure>)
      requires Valid()
      modifies this
      ensures Valid()
      ensures var pb := MakeParameterBinding(name, Some(provider));
        && (pb.Err? ==> failure == Some(pb.failure) && bindings == old(bindings))
        && (pb.Ok? ==> failure == None && bindings == old(bindings) + [ParameterStep(pb.value)])
      ensures transform == old(transform) && anchor == old(anchor) && transformBindingAdded == old(transformBindingAdded)
    {
      var pb := MakeParameterBinding(name, Some(provider));
      if pb.Err? {
        return Some(pb.failure);
      }
      TransformStepCountAppend(bindings, ParameterStep(pb.value));
      bindings := bindings + [ParameterStep(pb.value)];
      failure := None;
    }

    /** `bindParameter(name, property)`. */
    method BindParameter(name: Option<string>, property: Property) returns (failure: Option<Failure>)
      requires Valid()
      modifies this
      ensures Valid()
      ensures var pb := MakeParameterBinding(name, Some(AnimatedNoDefault(property)));
        && (pb.Err? ==> failure == Some(pb.failure) && bindings == old(bindings))
        && (pb.Ok? ==> failure == None && bindings == old(bindings) + [ParameterStep(pb.value)])
      ensures transform == old(transform) && anchor == old(anchor) && transformBindingAdded == old(transformBindingAdded)
    {
      failure := AddParameter(name, AnimatedNoDefault(property));
    }

    /** `bindParameter(name, property, defaultValue)`. */
    method BindParameterOr(name: Option<string>, property: Property, default: Value) returns (failure: Option<Failure>)
      requires Valid()
      modifies this
      ensures Valid()
      ensures var pb := MakeParameterBinding(name, Some(Animated(property, default)));
        && (pb.Err? ==> failure == Some(pb.failure) && bindings == old(bindings))
        && (pb.Ok? ==> failure == None && bindings == old(bindings) + [ParameterStep(pb.value)])
      ensures transform == old(transform) && anchor == old(anchor) && transformBindingAdded == old(transformBindingAdded)
    {
      failure := AddParameter(name, Animated(property, default));
    }

    /** `setParameter(name, value)`. */
    method SetParameter(name: Option<string>, value: Value) returns (failure: Option<Failure>)
      requires Valid()
      modifies this
      ensures Valid()
      ensures var pb := MakeParameterBinding(name, Some(ConstantOf(value)));
        && (pb.Err? ==> failure == Some(pb.failure) && bindings == old(bindings))
        && (pb.Ok? ==> failure == None && bindings == old(bindings) + [ParameterStep(pb.value)])
      ensures transform == old(transform) && anchor == old(anchor) && transformBindingAdded == old(transformBindingAdded)
    {
      failure := AddParameter(name, ConstantOf(value));
    }

    method SetPosition(v: Vec3)
      modifies transformBuilder
      ensures transformBuilder.Draft() == old(transformBuilder.Draft()).(position := Some(ConstantOf(Vector(v))))
    {
      transformBuilder.SetPosition(ConstantOf(Vector(v)));
    }

    method BindPosition(property: Property)
      modifies transformBuilder
      ensures transformBuilder.Draft() == old(transformBuilder.Draft()).(position := Some(AnimatedNoDefault(property)))
    {
      transformBuilder.SetPosition(AnimatedNoDefault(property));
    }

    /** `setPositionX`, `setPositionY`, `setPositionZ`. */
    method SetPositionComponent(axis: Axis, value: real)
      modifies transformBuilder
      ensures transformBuilder.Draft() ==
        old(transformBuilder.Draft()).(positionAxes := old(transformBuilder.positionAxes)[axis := ConstantOf(Double(value))])
    {
      transformBuilder.SetPositionComponent(axis, ConstantOf(Double(value)));
    }

    /** `bindPositionX`, `bindPositionY`, `bindPositionZ`. */
    method BindPositionComponent(axis: Axis, property: Property)
      modifies transformBuilder
      ensures transformBuilder.Draft() ==
        old(transformBuilder.Draft()).(positionAxes := old(transformBuilder.positionAxes)[axis := AnimatedNoDefault(property)])
    {
      transformBuilder.SetPositionComponent(axis, AnimatedNoDefault(property));
    }

    method SetScale(v: Vec3)
      modifies transformBuilder
      ensures transformBuilder.Draft() == old(transformBuilder.Draft()).(scale := Some(ConstantOf(Vector(v))))
    {
      transformBuilder.SetScale(ConstantOf(Vector(v)));
    }

    method BindScale(property: Property)
      modifies transformBuilder
      ensures transformBuilder.Draft() == old(transformBuilder.Draft()).(scale := Some(AnimatedNoDefault(property)))
    {
      transformBuilder.SetScale(AnimatedNoDefault(property));
    }

    method SetUniformScale(value: real)
      modifies transformBuilder
      ensures transformBuilder.Draft() == old(transformBuilder.Draft()).(uniformScale := Some(ConstantOf(Double(value))))
    {
      transformBuilder.SetUniformScale(ConstantOf(Double(value)));
    }

    method BindUniformScale(property: Property)
      modifies transformBuilder
      ensures transformBuilder.Draft() == old(transformBuilder.Draft()).(uniformScale := Some(AnimatedNoDefault(property)))
    {
      transformBuilder.SetUniformScale(AnimatedNoDefault(property));
    }

    method SetRotation(q: Quat)
      modifies transformBuilder
      ensures transformBuilder.Draft() == old(transformBuilder.Draft()).(rotation := Some(ConstantOf(Quaternion(q))))
    {
      transformBuilder.SetRotation(ConstantOf(Quaternion(q)));
    }

    method BindRotation(property: Property)
      modifies transformBuilder
      ensures transformBuilder.Draft() == old(transformBuilder.Draft()).(rotation := Some(AnimatedNoDefault(property)))
    {
      transformBuilder.SetRotation(AnimatedNoDefault(property));
    }

    method SetRotationEuler(angles: Vec3)
      modifies transformBuilder
      ensures transformBuilder.Draft() == old(transformBuilder.Draft()).(euler := Some(ConstantOf(Vector(angles))))
    {
      transformBuilder.SetRotationEuler(ConstantOf(Vector(angles)));
    }

    method BindRotationEuler(property: Property)
      modifies transformBuilder
      ensures transformBuilder.Draft() == old(transformBuilder.Draft()).(euler := Some(AnimatedNoDefault(property)))
    {
      transformBuilder.SetRotationEuler(AnimatedNoDefault(property));
    }

    /** `rotateAxisAngle(Vector3d, double)`. */
    method RotateAxisAngle(axis: Vec3, angle: real)
      modifies transformBuilder
      ensures transformBuilder.Draft() == old(transformBuilder.Draft()).(axisAngles :=
        old(transformBuilder.axisAngles) + [AxisAngle(ConstantOf(Vector(axis)), ConstantOf(Double(angle)))])
    {
      transformBuilder.RotateAxisAngle(ConstantOf(Vector(axis)), ConstantOf(Double(angle)));
    }

    /** `rotateAxisAngle(Vector3d, TimelineProperty)`. */
    method RotateAxisBoundAngle(axis: Vec3, angle: Property)
      modifies transformBuilder
      ensures transformBuilder.Draft() == old(transformBuilder.Draft()).(axisAngles :=
        old(transformBuilder.axisAngles) + [AxisAngle(ConstantOf(Vector(axis)), AnimatedNoDefault(angle))])
    {
      transformBuilder.RotateAxisAngle(ConstantOf(Vector(axis)), AnimatedNoDefault(angle));
    }

    /** `rotateAxisAngle(TimelineProperty, double)`. */
    method RotateBoundAxisAngle(axis: Property, angle: real)
      modifies transformBuilder
      ensures transformBuilder.Draft() == old(transformBuilder.Draft()).(axisAngles :=
        old(transformBuilder.axisAngles) + [AxisAngle(AnimatedNoDefault(axis), ConstantOf(Double(angle)))])
    {
      transformBuilder.RotateAxisAngle(AnimatedNoDefault(axis), ConstantOf(Double(angle)));
    }

    /** `rotateAxisAngle(TimelineProperty, TimelineProperty)`. */
    method RotateBoundAxisBoundAngle(axis: Property, angle: Property)
      modifies transformBuilder
      ensures transformBuilder.Draft() == old(transformBuilder.Draft()).(axisAngles :=
        old(transformBuilder.axisAngles) + [AxisAngle(AnimatedNoDefault(axis), AnimatedNoDefault(angle))])
    {
      transformBuilder.RotateAxisAngle(AnimatedNoDefault(axis), AnimatedNoDefault(angle));
    }

    /** `build`: the first call appends the transform binding, after the
      * parameter bindings registered so far; later calls append nothing, so
      * transform settings made after the first build never take effect. */
    method Build() returns (r: TimelineBindings)
      requires Valid()
      modifies this
      ensures Valid() && transformBindingAdded
      ensures bindings == if old(transformBindingAdded) then old(bindings)
                          else old(bindings) + [TransformStep(transformBuilder.Draft())]
      ensures transform == old(transform) && anchor == old(anchor)
      ensures r == TimelineBindings(transform, anchor, bindings)
    {
      if !transformBindingAdded {
        var tb := transformBuilder.Build();
        TransformStepCountAppend(bindings, TransformStep(tb));
        bindings := bindings + [TransformStep(tb)];
        transformBindingAdded := true;
      }
      r := TimelineBindings(transform, anchor, bindings);
    }
  }

  /** A parameter next to a per-axis position: the axis is set, the other axes
    * and the rotation stay those of the identity base, and the parameter is
    * stored under its name. */
  lemma EvaluateExample(s: Option<Snapshot>, world: World, trig: Trig)
    ensures var tbs := TimelineBindings(Identity, None,
        [ParameterStep(ParameterBinding("radius", ConstantOf(Double(2.0)))),
         TransformStep(EmptyTransformBinding.(positionAxes := map[X := ConstantOf(Double(5.0))]))]);
      Evaluate(tbs, s, world, trig) ==
        Ok(BindingResult(Transform(Vec3(5.0, 0.0, 0.0), IdentityQuat, One), map["radius" := Double(2.0)]))
  {
    var tb := EmptyTransformBinding.(positionAxes := map[X := ConstantOf(Double(5.0))]);
    var bs := [ParameterStep(ParameterBinding("radius", ConstantOf(Double(2.0)))), TransformStep(tb)];
    var tbs := TimelineBindings(Identity, None, bs);
    assert Seed(tbs, s, world, trig) == Identity;
    var st0 := InitialState(Identity);
    var st1 := ApplyParameter(bs[0].pb, s, st0);
    assert st1 == st0.(parameters := map["radius" := Double(2.0)]);
    assert bs[..1][..0] == [];
    assert ApplyBindings(bs[..1], s, trig, st0) == st1;
    assert bs[..1] == bs[..|bs| - 1];
    var st2 := ApplyTransform(tb, s, trig, st1);
    assert st2.position == Vec3(5.0, 0.0, 0.0) by {
      assert BoundPosition(tb, s, st1) == OverrideAxes(Zero, tb.positionAxes, s, {X});
    }
    assert st2.scale == One by {
      assert BoundScale(tb, s, st1) == OverrideAxes(One, map[], s, {});
    }
  }
}
