# TimelineFX core, modelled in Dafny

TimelineFX is a keyframe-animation and timeline engine for particle effects on
a game server. This project models its deterministic core and proves
properties of that model:

- **Timing curves** (`Curves`): the four polynomial easings and the cubic
  Bézier curve whose x-to-t inversion is a bounded 8-step Newton solve.
- **Keyframes** (`Keyframes`): the immutable keyframe and its fluent builder.
- **Interpolators** (`Interpolators`, `Anchors`): step, linear/Hermite for
  double, int and vector values, and the lazy blend of two transform
  providers.
- **Property channels** (`Channels`, `ChannelBuilders`, `Sorting`):
  keyframes stably sorted by time, HOLD/LOOP/PING_PONG extrapolation, and the
  bracketing of a time between two consecutive keyframes.
- **Tracks and timelines** (`Tracks`, `Timelines`, `Values`): segment
  resolution, segment-relative time, the timeline duration and snapshots.
- **Playback** (`Playback`): start delay, speed, bounded or infinite loops and
  the gap between loops, as a state machine over `startedTick`, `finished`
  and the last snapshot.
- **Transforms and bindings** (`Geometry`, `Bindings`, `BindingBuilders`):
  hierarchical composition, and the fixed order in which a snapshot is written
  into a mutable position/rotation/scale plus named parameters.
- **Parameters and property binding** (`Params`, `Binder`): typed getters
  with default fallback, change detection over an explicit field schema, and
  the render-or-skip rule of an animated effect.
- **Runtime containers** (`Particles`, `Clips`, `Orchestration`): the
  pooled particle buffer, the effect clip with its double-buffered layers and
  its builder, and the sequence, parallel and wait-ticks playables.
- **Integer raster** (`Alchemy`): the multiplicative random generator,
  Bresenham lines, midpoint circles and the seed-change guard of the alchemy
  circle effect.

Java `double` is modelled as `real`. Java `int` and `long` arithmetic, where
it can wrap, is written out with `JavaInt.Wrap32`/`Wrap64`, the truncating
remainder `JavaRem`, `Math.round` and the saturating double-to-int casts.
Objects whose fields the source updates in place are classes with
`modifies` clauses. Their methods are proved against the specification
functions the lemmas are about. A Java exception is the `Err` case of a
`Result`.

The library ships two near-identical package trees, `com.github…` and
`io.github…`. They are modelled once, and each row cites whichever copy holds
the code it models.

Some things lie outside the model and come in as parameters instead:

- JOML's trigonometry and square roots (axis rotations, axis-angle
  quaternions, normalisation, slerp) are a `Geometry.Trig` value.
- The anchor resolution of the world is `Anchors.World`.
- The library's string-to-number parsing and `String.valueOf` are the
  `Binder.Library` functions.
- The clock is the tick passed to each call.

## Model

| member | source | states |
|---|---|---|
| Curves.EasingUnitInterval | src/main/java/io/github/amatheo/timelinefx/animation/Easing.java:4-28 | each built-in easing maps a progress in [0, 1] into [0, 1], as the curve contract of TemporalCurve promises, and maps 0 to 0 and 1 to 1 |
| Curves.EasingMonotone | src/main/java/io/github/amatheo/timelinefx/animation/Easing.java:4-28 | each built-in easing is non-decreasing on [0, 1] |
| Curves.EaseInOutJoins | src/main/java/io/github/amatheo/timelinefx/animation/Easing.java:20-27 | the two branches of EASE_IN_OUT both give 0.5 at p = 0.5, and the curve is point-symmetric: f(1 - p) = 1 - f(p) |
| Curves.EasingsDoNotClamp | src/main/java/io/github/amatheo/timelinefx/animation/Easing.java:4-28 | progress outside [0, 1] is not clamped: LINEAR returns 2 at 2, EASE_IN returns 1 at -1, EASE_OUT returns 0 at 2, EASE_IN_OUT returns -1 at 2 and 2 at -1 |
| Curves.Clamp01 | src/main/java/com/github/amatheo/timelinefx/animation/BezierCurve.java:57-61 | the result lies in [0, 1]; it is the input inside [0, 1], 0 below and 1 above |
| Curves.MakeBezier | src/main/java/com/github/amatheo/timelinefx/animation/BezierCurve.java:19-22 | both control x coordinates are clamped into [0, 1] (kept when already inside); both y coordinates are kept as given |
| Curves.CubicBezierEndPoints | src/main/java/com/github/amatheo/timelinefx/animation/BezierCurve.java:33-40 | the cubic Bernstein polynomial gives c0 at t = 0 and c3 at t = 1 |
| Curves.SolveTForX | src/main/java/com/github/amatheo/timelinefx/animation/BezierCurve.java:43-55 | the loop returns the Newton iterate seeded with t = x after at most 8 updates, stopping before an update once the derivative's magnitude is below 1e-6 |
| Curves.BezierMapEnds | src/main/java/com/github/amatheo/timelinefx/animation/BezierCurve.java:24-27 | `map` is exactly 0 for progress at or below 0 and exactly 1 at or above 1 |
| Curves.NewtonFixedOnUniformX | src/main/java/com/github/amatheo/timelinefx/animation/BezierCurve.java:43-55 | with control x coordinates 1/3 and 2/3 the curve's x is t itself, so every Newton step stays at its seed x |
| Curves.BezierUniformIsLinear | src/main/java/com/github/amatheo/timelinefx/animation/BezierCurve.java:24-31 | the curve with control points (1/3, 1/3) and (2/3, 2/3) agrees with LINEAR on [0, 1]: the y-polynomial with P0.y = 0 and P3.y = 1 at the solved t |
| Curves.CurveEndPoints | src/main/java/com/github/amatheo/timelinefx/animation/TemporalCurve.java:3-9 | every curve of the model, built-in easing or Bezier, maps 0 to 0 and 1 to 1 |
| Keyframes.KeyframeBuilder.At | src/main/java/com/github/amatheo/timelinefx/animation/Keyframe.java:45-47 | a builder at the given time with no value, no tangents and the LINEAR curve |
| Keyframes.KeyframeBuilder.SetValue | src/main/java/com/github/amatheo/timelinefx/animation/Keyframe.java:64-67 | the value is replaced (null allowed until `build`); the tangents and the curve are kept |
| Keyframes.KeyframeBuilder.SetInTangent | src/main/java/com/github/amatheo/timelinefx/animation/Keyframe.java:69-72 | the in-tangent is replaced; the other fields are kept |
| Keyframes.KeyframeBuilder.SetOutTangent | src/main/java/com/github/amatheo/timelinefx/animation/Keyframe.java:74-77 | the out-tangent is replaced; the other fields are kept |
| Keyframes.KeyframeBuilder.SetCurve | src/main/java/com/github/amatheo/timelinefx/animation/Keyframe.java:85-88 | the curve is replaced, a null one included, so the last of `curve`, `easing` and `bezier` decides the curve |
| Keyframes.KeyframeBuilder.SetEasing | src/main/java/com/github/amatheo/timelinefx/animation/Keyframe.java:96-99 | a null easing fails with a null-pointer error and leaves the curve as it was; otherwise the easing becomes the curve |
| Keyframes.KeyframeBuilder.SetBezier | src/main/java/com/github/amatheo/timelinefx/animation/Keyframe.java:110-113 | the curve becomes the Bezier curve with clamped x coordinates; the other fields are kept |
| Keyframes.KeyframeBuilder.Build | src/main/java/com/github/amatheo/timelinefx/animation/Keyframe.java:13-19 | the build succeeds iff both value and curve are set; a missing value is reported first; on success the keyframe holds the builder's time, value, optional tangents and curve |
| Keyframes.Of | src/main/java/com/github/amatheo/timelinefx/animation/Keyframe.java:49-51 | `of(t, v)` goes through the builder and yields time t, value v, no tangents and the LINEAR curve |
| Anchors.MakeBlend | src/main/java/com/github/amatheo/timelinefx/animation/target/InterpolatedTransformProvider.java:17-21 | the blend keeps both providers and stores the progress clamped into [0, 1], unchanged when already inside |
| Anchors.BlendSnaps | src/main/java/com/github/amatheo/timelinefx/animation/target/InterpolatedTransformProvider.java:24-37 | the blend reports null iff both sides do; a null side snaps to the other side's transform, returned as is |
| Anchors.BlendInterpolates | src/main/java/com/github/amatheo/timelinefx/animation/target/InterpolatedTransformProvider.java:39-44 | with both sides present, position and scale are the component lerps a + (b - a)·t at the stored progress and the rotation is the slerp of the two rotations |
| Anchors.LerpEnds | src/main/java/com/github/amatheo/timelinefx/animation/target/InterpolatedTransformProvider.java:40-42 | a lerp at 0 is its first end and at 1 its second |
| Anchors.BlendEndPoints | src/main/java/com/github/amatheo/timelinefx/animation/target/InterpolatedTransformProvider.java:39-44 | a blend at progress 0 has its first side's position and scale, at progress 1 its second side's |
| Anchors.ResolveDependsOnlyOnWorld | src/main/java/com/github/amatheo/timelinefx/animation/target/InterpolatedTransformProvider.java:23-26 | both sides are re-queried on every call: what a blend, however deeply nested, reports is determined by the world's current transforms alone |
| Interpolators.StepHolds | src/main/java/com/github/amatheo/timelinefx/animation/interpolator/StepKeyframeInterpolator.java:17-23 | the step result is always one of the two keyframe values: the start value while the duration is positive and progress below 1, the end value otherwise |
| Interpolators.HermiteEndPoints | src/main/java/io/github/amatheo/timelinefx/animation/interpolator/DoubleKeyframeInterpolator.java:44-52 | the Hermite basis h00, h10, h01, h11 with tangents scaled by the duration gives the start value at progress 0 and the end value at progress 1 |
| Interpolators.HermiteWithChordSlopesIsLinear | src/main/java/io/github/amatheo/timelinefx/animation/interpolator/DoubleKeyframeInterpolator.java:38-52 | with both tangents equal to the chord slope (end - start) / duration, the Hermite value is the linear start + (end - start)·progress |
| Interpolators.HermiteOrNone | src/main/java/io/github/amatheo/timelinefx/animation/interpolator/DoubleKeyframeInterpolator.java:31-36 | the Hermite step is absent (the NaN sentinel) iff neither `from.outTangent` nor `to.inTangent` is present; a missing one defaults to the chord slope |
| Interpolators.DoubleInterpolateEndPoints | src/main/java/io/github/amatheo/timelinefx/animation/interpolator/DoubleKeyframeInterpolator.java:16-29 | a duration at or below 0 returns `to.value` at every progress; otherwise progress 0 gives the start value and progress 1 the end value, whichever tangents are present |
| Interpolators.DoubleInterpolateLinear | src/main/java/io/github/amatheo/timelinefx/animation/interpolator/DoubleKeyframeInterpolator.java:21-28 | without tangents, or with tangents equal to the chord slope, the result is start + (end - start)·progress |
| Interpolators.DoubleHermiteExample | src/main/java/io/github/amatheo/timelinefx/animation/interpolator/DoubleKeyframeInterpolator.java:31-53 | from (0, 0) with out-tangent 2 to (1, 1) with in-tangent 0, the value at 0.5 is 0.75 |
| Interpolators.ClampToInt | src/main/java/io/github/amatheo/timelinefx/animation/interpolator/IntegerKeyframeInterpolator.java:56-64 | the result is an int: the input when it is one, the int's maximum above and its minimum below |
| Interpolators.IntegerInterpolateAsWritten | src/main/java/io/github/amatheo/timelinefx/animation/interpolator/IntegerKeyframeInterpolator.java:16-30 | the interpolation as written, the 32-bit `end - start` of the linear path wrapping around; an int end value gives an int result |
| Interpolators.IntegerInterpolate | src/main/java/io/github/amatheo/timelinefx/animation/interpolator/IntegerKeyframeInterpolator.java:16-30 | the interpolation with `end - start` taken exactly; an int end value gives an int result |
| Interpolators.IntegerInterpolateAgrees | src/main/java/io/github/amatheo/timelinefx/animation/interpolator/IntegerKeyframeInterpolator.java:26-29 | whenever end - start fits in an int, the written and the corrected interpolation agree on every input |
| Interpolators.IntegerInterpolateOverflowExample | src/main/java/io/github/amatheo/timelinefx/animation/interpolator/IntegerKeyframeInterpolator.java:26-29 | from the smallest int to the largest at progress 1 the written linear path returns the smallest int, the corrected one the largest |
| Interpolators.IntegerInterpolateEndPoints | src/main/java/io/github/amatheo/timelinefx/animation/interpolator/IntegerKeyframeInterpolator.java:16-53 | the rounded and clamped result is the start value at progress 0 (positive duration) and the end value at progress 1, whichever tangents are present |
| Interpolators.IntegerLinearBetween | src/main/java/io/github/amatheo/timelinefx/animation/interpolator/IntegerKeyframeInterpolator.java:26-29 | without tangents and for progress in [0, 1], the rounded linear value lies between the two end values |
| Interpolators.LinearBetween | src/main/java/io/github/amatheo/timelinefx/animation/interpolator/IntegerKeyframeInterpolator.java:28 | start + (end - start)·t lies between start and end for t in [0, 1] |
| Interpolators.RoundBetween | src/main/java/io/github/amatheo/timelinefx/animation/interpolator/IntegerKeyframeInterpolator.java:23-29 | `Math.round` of a value between two ints lies between them |
| Interpolators.VectorInterpolateIsComponentwise | src/main/java/com/github/amatheo/timelinefx/animation/interpolator/Vector3dKeyframeInterpolator.java:20-61 | each coordinate of the vector result is the double interpolation of that coordinate: a copy of the end at a non-positive duration, a lerp without tangents, otherwise the shared Hermite basis with a missing tangent defaulting to (end - start) / duration |
| Interpolators.ProviderInterpolateCases | src/main/java/com/github/amatheo/timelinefx/animation/interpolator/TransformProviderInterpolator.java:25-35 | progress at or below 0 gives `from.value` itself, at or above 1 `to.value` itself, strictly between an unresolved blend of the two at that progress; the duration argument plays no part |
| Geometry.WithComponent | src/main/java/com/github/amatheo/timelinefx/animation/binding/MutableBindingState.java:32-50 | the component on the given axis is replaced and the other two are kept (the per-axis writes of the bindings) |
| Geometry.QMulIdentity | src/main/java/io/github/amatheo/timelinefx/transform/Transform.java:7-9 | the identity rotation of `identity()` is a two-sided unit of the quaternion product |
| Geometry.RotateByIdentity | src/main/java/io/github/amatheo/timelinefx/transform/Transform.java:7-9 | rotating by the identity rotation leaves a vector unchanged |
| Geometry.RotateZero | src/main/java/io/github/amatheo/timelinefx/transform/Transform.java:28-33 | rotating the origin yields the origin |
| Geometry.ComposePositionIsTransformPoint | src/main/java/io/github/amatheo/timelinefx/transform/Transform.java:21-49 | the composed position is the child's position scaled, rotated and translated by the parent, which is `parent.transformPoint(child.position)`; rotations multiply parent first; scales multiply component-wise |
| Geometry.ComposeIdentityParent | src/main/java/io/github/amatheo/timelinefx/transform/Transform.java:21-36 | an identity parent leaves the child unchanged |
| Geometry.ComposeIdentityChild | src/main/java/io/github/amatheo/timelinefx/transform/Transform.java:21-36 | an identity child yields the parent |
| Geometry.DirectionIgnoresTranslationAndScale | src/main/java/io/github/amatheo/timelinefx/transform/Transform.java:56-60 | transforming a direction is transforming a point by the same rotation with no translation and unit scale |
| Geometry.ComposeHierarchyExample | src/test/java/io/github/amatheo/timelinefx/transform/TransformHierarchyTest.java:145-180 | parent (10, 5, 0) with a quarter turn about Y and scale (2, 1, 2), child (3, 2, 0) with scale (0.5, 2, 1): the child lands on (10, 7, -6) with scale (1, 2, 2) |
| Bindings.InitialState | src/main/java/com/github/amatheo/timelinefx/animation/binding/MutableBindingState.java:16-20 | a fresh state holds the base transform's position, scale and rotation and no parameters |
| Bindings.ResultOf | src/main/java/com/github/amatheo/timelinefx/animation/binding/MutableBindingState.java:68-71 | the result holds the state's position, rotation and scale and its parameters; `Map.copyOf` fails with a null-pointer error iff some parameter holds null |
| Bindings.BindingState.constructor | src/main/java/com/github/amatheo/timelinefx/animation/binding/MutableBindingState.java:16-20 | the state is a copy of the base transform with no parameters |
| Bindings.BindingState.OverrideTransform | src/main/java/com/github/amatheo/timelinefx/animation/binding/MutableBindingState.java:22-26 | position, scale and rotation are all replaced by the given transform's; parameters are kept |
| Bindings.BindingState.SetPosition | src/main/java/com/github/amatheo/timelinefx/animation/binding/MutableBindingState.java:28-30 | only the position changes, to the given vector |
| Bindings.BindingState.SetPositionComponent | src/main/java/com/github/amatheo/timelinefx/animation/binding/MutableBindingState.java:32-38 | only the named axis of the position changes |
| Bindings.BindingState.SetScale | src/main/java/com/github/amatheo/timelinefx/animation/binding/MutableBindingState.java:40-42 | only the scale changes, to the given vector |
| Bindings.BindingState.SetScaleComponent | src/main/java/com/github/amatheo/timelinefx/animation/binding/MutableBindingState.java:44-50 | only the named axis of the scale changes |
| Bindings.BindingState.SetUniformScale | src/main/java/com/github/amatheo/timelinefx/animation/binding/MutableBindingState.java:52-54 | every axis of the scale becomes the value; nothing else changes |
| Bindings.BindingState.SetRotation | src/main/java/com/github/amatheo/timelinefx/animation/binding/MutableBindingState.java:56-58 | only the rotation changes, to the given quaternion |
| Bindings.BindingState.ApplyRotation | src/main/java/com/github/amatheo/timelinefx/animation/binding/MutableBindingState.java:60-62 | the rotation becomes rotation · delta (right multiplication); nothing else changes |
| Bindings.BindingState.SetParameter | src/main/java/com/github/amatheo/timelinefx/animation/binding/MutableBindingState.java:64-66 | the parameter is written under its name, replacing an earlier value; nothing else changes |
| Bindings.BindingState.ToResult | src/main/java/com/github/amatheo/timelinefx/animation/binding/MutableBindingState.java:68-71 | the result is `ResultOf` the current state, including its failure on a null parameter |
| Bindings.Read | src/main/java/io/github/amatheo/timelinefx/animation/binding/TransformBinding.java:51-74 | an absent provider reads as null; a present one yields what it reports for the snapshot |
| Bindings.OverrideAxes | src/main/java/io/github/amatheo/timelinefx/animation/binding/TransformBinding.java:57-60 | each handled axis whose provider yields a number takes that number; every other axis keeps its value |
| Bindings.OverrideOneMore | src/main/java/io/github/amatheo/timelinefx/animation/binding/TransformBinding.java:57-60 | handling one more axis replaces just that component, and only if its provider yields a number, so the order in which the map is walked does not matter |
| Bindings.AxisAngleDelta | src/main/java/io/github/amatheo/timelinefx/animation/binding/TransformBinding.java:194-203 | a rotation is applied iff axis and angle are both present, the angle is non-zero and the axis's squared length exceeds 1e-12; it is then the rotation by that angle about the normalised axis |
| Bindings.ApplyTransform | src/main/java/io/github/amatheo/timelinefx/animation/binding/TransformBinding.java:48-80 | the transform binding never touches the parameters |
| Bindings.PositionPrecedence | src/main/java/io/github/amatheo/timelinefx/animation/binding/TransformBinding.java:51-60 | each position axis comes from its own provider if that yields a number, else from the position vector, else from the override transform, else it keeps its value |
| Bindings.ScalePrecedence | src/main/java/io/github/amatheo/timelinefx/animation/binding/TransformBinding.java:51-70 | each scale axis: its own provider, then the uniform scale, then the scale vector, then the override transform, then the old value |
| Bindings.AxisAngleFactors | src/main/java/io/github/amatheo/timelinefx/animation/binding/TransformBinding.java:77-79 | one factor per axis-angle registration, in registration order |
| Bindings.ProductOfAxisAngles | src/main/java/io/github/amatheo/timelinefx/animation/binding/TransformBinding.java:77-79 | applying the axis-angle rotations in order multiplies their deltas on the right, a skipped one counting as the identity |
| Bindings.RotationOrder | src/main/java/io/github/amatheo/timelinefx/animation/binding/TransformBinding.java:72-79 | the final rotation is R0 · Q · E · A1 · … · An: the rotation after the override, then the quaternion slot, the Euler rotation (Y, then X, then Z) and the axis-angle rotations, with identity for each slot that yields nothing |
| Bindings.EmptyBindingChangesNothing | src/main/java/io/github/amatheo/timelinefx/animation/binding/TransformBinding.java:48-80 | a binding with every slot empty leaves the state as it is |
| Bindings.ApplyPositionAxes | src/main/java/io/github/amatheo/timelinefx/animation/binding/TransformBinding.java:57-60 | the loop over the position-axis map, in any order, leaves the position equal to `OverrideAxes` of the starting position; nothing else changes |
| Bindings.ApplyScaleAxes | src/main/java/io/github/amatheo/timelinefx/animation/binding/TransformBinding.java:67-70 | the loop over the scale-axis map leaves the scale equal to `OverrideAxes` of the starting scale; nothing else changes |
| Bindings.ApplyEulerRotation | src/main/java/io/github/amatheo/timelinefx/animation/binding/TransformBinding.java:82-109 | the angles start from the Euler vector (or zero) and each axis value replaces its component; the rotation is multiplied by their quaternion iff the vector or some axis yielded a value, otherwise the state is unchanged |
| Bindings.ApplyAxisAngleRotations | src/main/java/io/github/amatheo/timelinefx/animation/binding/TransformBinding.java:77-79 | the rotations are applied in registration order; only the rotation changes |
| Bindings.ApplyTransformBinding | src/main/java/io/github/amatheo/timelinefx/animation/binding/TransformBinding.java:48-80 | the new state is exactly `ApplyTransform` of the old one: override, position, position axes, scale, uniform scale, scale axes, quaternion, Euler angles, axis-angle rotations |
| Bindings.ApplyPositionSlots | src/main/java/io/github/amatheo/timelinefx/animation/binding/TransformBinding.java:54-60 | the position vector if present, then the position axes; only the position changes |
| Bindings.ApplyScaleSlots | src/main/java/io/github/amatheo/timelinefx/animation/binding/TransformBinding.java:61-70 | the scale vector, then the uniform scale, then the scale axes; only the scale changes |
| Bindings.ApplyRotationSlots | src/main/java/io/github/amatheo/timelinefx/animation/binding/TransformBinding.java:72-79 | the quaternion, then the Euler rotation, then the axis-angle rotations, each multiplied on the right; only the rotation changes |
| Bindings.MakeParameterBinding | src/main/java/io/github/amatheo/timelinefx/animation/binding/ParameterBinding.java:23-29 | construction succeeds iff the name is present and not blank and the provider is present; a blank name is an illegal argument, a null name fails on the blank check with a null pointer |
| Bindings.ApplyParameter | src/main/java/io/github/amatheo/timelinefx/animation/binding/ParameterBinding.java:32-37 | a non-null value is written under the name, the other parameters kept; a null value changes nothing; the transform is never touched |
| Bindings.ApplyParameterBinding | src/main/java/io/github/amatheo/timelinefx/animation/binding/ParameterBinding.java:32-37 | the new state is `ApplyParameter` of the old one |
| Bindings.TransformAndParameterCommute | src/main/java/io/github/amatheo/timelinefx/animation/binding/TimelineBindings.java:46-48 | a transform binding and a parameter binding touch disjoint parts of the state, so their order in the list does not matter to each other |
| Bindings.ApplyBindingsNoNull | src/main/java/io/github/amatheo/timelinefx/animation/binding/TimelineBindings.java:45-49 | no binding ever stores a null parameter, so `toResult` cannot fail |
| Bindings.SeedSpec | src/main/java/io/github/amatheo/timelinefx/animation/binding/TimelineBindings.java:29-43 | the seed is the base transform when there is no anchor provider, it yields null or its target reports null; otherwise it is `compose(base, anchor transform)` |
| Bindings.Evaluate | src/main/java/io/github/amatheo/timelinefx/animation/binding/TimelineBindings.java:28-50 | evaluation always yields a result |
| Bindings.EvaluateBindings | src/main/java/io/github/amatheo/timelinefx/animation/binding/TimelineBindings.java:28-50 | the loop over the bindings returns `Evaluate`: a fresh state seeded from the seed transform, every binding applied in list order, then `toResult` |
| BindingBuilders.TransformBindingBuilder.constructor | src/main/java/io/github/amatheo/timelinefx/animation/binding/TransformBinding.java:111-121 | a new builder drafts the empty transform binding: no slot set, no per-axis provider, no axis-angle rotation |
| BindingBuilders.TransformBindingBuilder.SetTransform | src/main/java/io/github/amatheo/timelinefx/animation/binding/TransformBinding.java:123-126 | only the whole-transform slot changes, to the given provider |
| BindingBuilders.TransformBindingBuilder.SetPosition | src/main/java/io/github/amatheo/timelinefx/animation/binding/TransformBinding.java:128-131 | only the position slot changes; a later call replaces an earlier one |
| BindingBuilders.TransformBindingBuilder.SetPositionComponent | src/main/java/io/github/amatheo/timelinefx/animation/binding/TransformBinding.java:133-136 | only the given axis of the per-axis position map changes; the other axes keep their providers |
| BindingBuilders.TransformBindingBuilder.SetScale | src/main/java/io/github/amatheo/timelinefx/animation/binding/TransformBinding.java:138-141 | only the scale slot changes |
| BindingBuilders.TransformBindingBuilder.SetUniformScale | src/main/java/io/github/amatheo/timelinefx/animation/binding/TransformBinding.java:143-146 | only the uniform-scale slot changes |
| BindingBuilders.TransformBindingBuilder.SetScaleComponent | src/main/java/io/github/amatheo/timelinefx/animation/binding/TransformBinding.java:148-151 | only the given axis of the per-axis scale map changes |
| BindingBuilders.TransformBindingBuilder.SetRotation | src/main/java/io/github/amatheo/timelinefx/animation/binding/TransformBinding.java:153-156 | only the quaternion rotation slot changes |
| BindingBuilders.TransformBindingBuilder.SetRotationEuler | src/main/java/io/github/amatheo/timelinefx/animation/binding/TransformBinding.java:158-161 | only the Euler-vector slot changes |
| BindingBuilders.TransformBindingBuilder.SetRotationComponent | src/main/java/io/github/amatheo/timelinefx/animation/binding/TransformBinding.java:164-177 | `rotationX/Y/Z`: only the given axis of the per-axis Euler map changes |
| BindingBuilders.TransformBindingBuilder.RotateAxisAngle | src/main/java/io/github/amatheo/timelinefx/animation/binding/TransformBinding.java:179-182 | the axis-angle list grows by exactly the given rotation at its end; every other slot is kept |
| BindingBuilders.TransformBindingBuilder.Build | src/main/java/io/github/amatheo/timelinefx/animation/binding/TransformBinding.java:184-186 | the built binding carries exactly the slots collected so far |
| BindingBuilders.ConstantOf | src/main/java/com/github/amatheo/timelinefx/animation/value/ConstantValue.java:9-19 | a constant provider yields its value for every snapshot, present or absent |
| BindingBuilders.TimelineBindingsBuilder.constructor | src/main/java/io/github/amatheo/timelinefx/animation/binding/TimelineBindingsBuilder.java:21-25 | a new builder has the identity base transform, no anchor, no bindings, an empty transform builder and the transform binding not yet added |
| BindingBuilders.TimelineBindingsBuilder.SetTransform | src/main/java/io/github/amatheo/timelinefx/animation/binding/TimelineBindingsBuilder.java:31-34 | a null transform is refused with a null-pointer failure and nothing changes; otherwise only the base transform changes |
| BindingBuilders.TimelineBindingsBuilder.SetAnchor | src/main/java/io/github/amatheo/timelinefx/animation/binding/TimelineBindingsBuilder.java:39-42 | the anchor becomes a constant provider of the target, replacing any earlier anchor; nothing else changes |
| BindingBuilders.TimelineBindingsBuilder.BindAnchor | src/main/java/io/github/amatheo/timelinefx/animation/binding/TimelineBindingsBuilder.java:47-50 | the anchor becomes a property-backed provider with no default, replacing any earlier anchor |
| BindingBuilders.TimelineBindingsBuilder.AddParameter | src/main/java/io/github/amatheo/timelinefx/animation/binding/TimelineBindingsBuilder.java:53-72 | the `ParameterBinding` constructor's failure (null or blank name, null provider) is reported and the list is unchanged; otherwise exactly one parameter binding is appended; the builder stays valid (at most one transform binding, every parameter name non-blank) |
| BindingBuilders.TimelineBindingsBuilder.BindParameter | src/main/java/io/github/amatheo/timelinefx/animation/binding/TimelineBindingsBuilder.java:53-56 | as `AddParameter` with a property-backed provider with no default |
| BindingBuilders.TimelineBindingsBuilder.BindParameterOr | src/main/java/io/github/amatheo/timelinefx/animation/binding/TimelineBindingsBuilder.java:61-64 | as `AddParameter` with a property-backed provider and the given default |
| BindingBuilders.TimelineBindingsBuilder.SetParameter | src/main/java/io/github/amatheo/timelinefx/animation/binding/TimelineBindingsBuilder.java:69-72 | as `AddParameter` with a constant provider |
| BindingBuilders.TimelineBindingsBuilder.SetPosition | src/main/java/io/github/amatheo/timelinefx/animation/binding/TimelineBindingsBuilder.java:74-77 | the transform builder's position slot becomes the constant vector; nothing else in the draft changes |
| BindingBuilders.TimelineBindingsBuilder.BindPosition | src/main/java/io/github/amatheo/timelinefx/animation/binding/TimelineBindingsBuilder.java:79-82 | the position slot becomes the property-backed provider |
| BindingBuilders.TimelineBindingsBuilder.SetPositionComponent | src/main/java/io/github/amatheo/timelinefx/animation/binding/TimelineBindingsBuilder.java:84-112 | `setPositionX/Y/Z`: one axis of the per-axis position map becomes the constant |
| BindingBuilders.TimelineBindingsBuilder.BindPositionComponent | src/main/java/io/github/amatheo/timelinefx/animation/binding/TimelineBindingsBuilder.java:89-111 | `bindPositionX/Y/Z`: one axis of the per-axis position map becomes the property-backed provider |
| BindingBuilders.TimelineBindingsBuilder.SetScale | src/main/java/io/github/amatheo/timelinefx/animation/binding/TimelineBindingsBuilder.java:114-117 | the scale slot becomes the constant vector |
| BindingBuilders.TimelineBindingsBuilder.BindScale | src/main/java/io/github/amatheo/timelinefx/animation/binding/TimelineBindingsBuilder.java:119-122 | the scale slot becomes the property-backed provider |
| BindingBuilders.TimelineBindingsBuilder.SetUniformScale | src/main/java/io/github/amatheo/timelinefx/animation/binding/TimelineBindingsBuilder.java:124-127 | the uniform-scale slot becomes the constant |
| BindingBuilders.TimelineBindingsBuilder.BindUniformScale | src/main/java/io/github/amatheo/timelinefx/animation/binding/TimelineBindingsBuilder.java:129-132 | the uniform-scale slot becomes the property-backed provider |
| BindingBuilders.TimelineBindingsBuilder.SetRotation | src/main/java/io/github/amatheo/timelinefx/animation/binding/TimelineBindingsBuilder.java:134-137 | the rotation slot becomes the constant quaternion |
| BindingBuilders.TimelineBindingsBuilder.BindRotation | src/main/java/io/github/amatheo/timelinefx/animation/binding/TimelineBindingsBuilder.java:139-142 | the rotation slot becomes the property-backed provider |
| BindingBuilders.TimelineBindingsBuilder.SetRotationEuler | src/main/java/io/github/amatheo/timelinefx/animation/binding/TimelineBindingsBuilder.java:144-147 | the Euler slot becomes the constant vector |
| BindingBuilders.TimelineBindingsBuilder.BindRotationEuler | src/main/java/io/github/amatheo/timelinefx/animation/binding/TimelineBindingsBuilder.java:149-152 | the Euler slot becomes the property-backed provider |
| BindingBuilders.TimelineBindingsBuilder.RotateAxisAngle | src/main/java/io/github/amatheo/timelinefx/animation/binding/TimelineBindingsBuilder.java:154-157 | one constant-axis, constant-angle rotation is appended to the draft's list |
| BindingBuilders.TimelineBindingsBuilder.RotateAxisBoundAngle | src/main/java/io/github/amatheo/timelinefx/animation/binding/TimelineBindingsBuilder.java:159-162 | one constant-axis, property-angle rotation is appended |
| BindingBuilders.TimelineBindingsBuilder.RotateBoundAxisAngle | src/main/java/io/github/amatheo/timelinefx/animation/binding/TimelineBindingsBuilder.java:164-167 | one property-axis, constant-angle rotation is appended |
| BindingBuilders.TimelineBindingsBuilder.RotateBoundAxisBoundAngle | src/main/java/io/github/amatheo/timelinefx/animation/binding/TimelineBindingsBuilder.java:169-172 | one property-axis, property-angle rotation is appended |
| BindingBuilders.TimelineBindingsBuilder.Build | src/main/java/io/github/amatheo/timelinefx/animation/binding/TimelineBindingsBuilder.java:174-181 | the first call appends the transform binding after the parameters registered so far and later calls append nothing, so exactly one transform binding is ever present; the result carries the base transform, the anchor and the binding list |
| BindingBuilders.EvaluateExample | src/main/java/io/github/amatheo/timelinefx/animation/binding/TimelineBindings.java:28-50 | a constant parameter followed by a per-axis X position over the identity base evaluates to position (5,0,0), identity rotation, unit scale and the single parameter `radius` |
| ChannelBuilders.ConfigureValueOnly | src/main/java/com/github/amatheo/timelinefx/animation/Keyframe.java:49-51 | a configurer that only sets the value builds exactly `Keyframe.of(time, value)` |
| ChannelBuilders.ConfigureNeedsValue | src/main/java/com/github/amatheo/timelinefx/animation/Keyframe.java:13-19 | a configurer that never sets a value always fails, because the keyframe constructor refuses a null value |
| ChannelBuilders.NoValueStaysNone | src/main/java/com/github/amatheo/timelinefx/animation/Keyframe.java:53-67 | without a value call, no sequence of builder calls leaves a value in the draft |
| ChannelBuilders.ConfigureLastValueWins | src/main/java/com/github/amatheo/timelinefx/animation/Keyframe.java:64-118 | a configurer ending with a value call succeeds exactly when the earlier calls succeed and leave a curve; the keyframe then sits at the configured time with the last value set |
| ChannelBuilders.PrefixFailurePersists | src/main/java/com/github/amatheo/timelinefx/animation/Keyframe.java:96-99 | once a null easing has failed the configurer, the remaining calls do not change the outcome |
| ChannelBuilders.ChannelBuilder.constructor | src/main/java/com/github/amatheo/timelinefx/animation/ChannelBuilder.java:22-25 | a fresh channel builder with the given interpolator, no keyframes and HOLD on both sides |
| ChannelBuilders.ChannelBuilder.PreBehavior | src/main/java/com/github/amatheo/timelinefx/animation/ChannelBuilder.java:114-117 | only the pre-behaviour changes, to the given (possibly null) value |
| ChannelBuilders.ChannelBuilder.PostBehavior | src/main/java/com/github/amatheo/timelinefx/animation/ChannelBuilder.java:124-127 | only the post-behaviour changes |
| ChannelBuilders.ChannelBuilder.Add | src/main/java/com/github/amatheo/timelinefx/animation/ChannelBuilder.java:134-137 | exactly one keyframe is appended; interpolator and behaviours are kept |
| ChannelBuilders.ChannelBuilder.AddAll | src/main/java/com/github/amatheo/timelinefx/animation/ChannelBuilder.java:144-149 | the keyframes are appended in iteration order, nothing else changes |
| ChannelBuilders.ChannelBuilder.AddAt | src/main/java/com/github/amatheo/timelinefx/animation/ChannelBuilder.java:157-159 | appends `Keyframe.of(time, value)` |
| ChannelBuilders.ChannelBuilder.AddConfigured | src/main/java/com/github/amatheo/timelinefx/animation/ChannelBuilder.java:167-171 | the configured keyframe is appended when configuring and building succeed; otherwise their failure is returned and nothing is added |
| ChannelBuilders.ChannelBuilder.Build | src/main/java/com/github/amatheo/timelinefx/animation/ChannelBuilder.java:177-179 | building delegates to the channel builder: `MakeChannel` on the collected keyframes and behaviours |
| ChannelBuilders.Booleans | src/main/java/com/github/amatheo/timelinefx/animation/ChannelBuilder.java:34-36 | a fresh builder with step interpolation, no keyframes, HOLD both sides |
| ChannelBuilders.TransformProviders | src/main/java/com/github/amatheo/timelinefx/animation/ChannelBuilder.java:45-47 | a fresh builder with the anchor (transform provider) interpolator |
| ChannelBuilders.Objects | src/main/java/com/github/amatheo/timelinefx/animation/ChannelBuilder.java:57-59 | a fresh builder with step interpolation |
| ChannelBuilders.Doubles | src/main/java/com/github/amatheo/timelinefx/animation/ChannelBuilder.java:68-70 | a fresh builder with the double (Hermite or linear) interpolator |
| ChannelBuilders.Integers | src/main/java/com/github/amatheo/timelinefx/animation/ChannelBuilder.java:77-79 | a fresh builder with the rounding integer interpolator |
| ChannelBuilders.Vectors | src/main/java/com/github/amatheo/timelinefx/animation/ChannelBuilder.java:86-88 | a fresh builder with the component-wise vector interpolator |
| ChannelBuilders.Quaternions | src/main/java/com/github/amatheo/timelinefx/animation/ChannelBuilder.java:95-97 | a fresh builder with the given quaternion interpolator |
| ChannelBuilders.Of | src/main/java/com/github/amatheo/timelinefx/animation/ChannelBuilder.java:105-107 | a null interpolator fails with a null-pointer error and only then; otherwise a fresh builder with that interpolator |
| Channels.MakeChannelSpec | src/main/java/io/github/amatheo/timelinefx/animation/PropertyChannel.java:14-29 | construction fails exactly on an empty list (illegal argument) or a null interpolator or behaviour; a built channel has at least one keyframe, sorted by time, a permutation of the input, with keyframes of equal time in insertion order |
| Channels.DurationNonNegative | src/main/java/io/github/amatheo/timelinefx/animation/PropertyChannel.java:35-45 | on a valid channel the duration is non-negative and every keyframe time lies between start and end |
| Channels.LoopTimeBounds | src/main/java/io/github/amatheo/timelinefx/animation/PropertyChannel.java:104-110 | `loopTime` lands in [first, first + duration) and differs from the input by a whole number of durations |
| Channels.LoopTimePeriodic | src/main/java/io/github/amatheo/timelinefx/animation/PropertyChannel.java:104-110 | `loopTime` is periodic with period `duration` |
| Channels.PingPongTimeBounds | src/main/java/io/github/amatheo/timelinefx/animation/PropertyChannel.java:112-123 | `pingPongTime` lands in [first, first + duration] |
| Channels.PingPongTimeMirror | src/main/java/io/github/amatheo/timelinefx/animation/PropertyChannel.java:112-123 | `pingPongTime` mirrors the range about its end: first + duration + x maps to first + duration - x |
| Channels.RemapTimeInRange | src/main/java/io/github/amatheo/timelinefx/animation/PropertyChannel.java:79-102 | every remapped time lies within [start, end], and a time already in it is kept |
| Channels.Get | src/main/java/io/github/amatheo/timelinefx/animation/PropertyChannel.java:55-77 | the index loop with early returns computes `Sample`: one keyframe gives its value, otherwise the first segment whose end is not before the remapped time |
| Channels.SingleKeyframeConstant | src/main/java/io/github/amatheo/timelinefx/animation/PropertyChannel.java:57-59 | a single-keyframe channel samples its value at every time |
| Channels.ScanFinds | src/main/java/io/github/amatheo/timelinefx/animation/PropertyChannel.java:61-76 | for a time not past the end, the scan stops at the first segment k whose end is not before the time, all intermediate keyframes being earlier |
| Channels.ProgressInUnit | src/main/java/io/github/amatheo/timelinefx/animation/PropertyChannel.java:69 | the raw progress on a positive-length segment containing the time lies in [0, 1] |
| Channels.SameRemapSameSample | src/main/java/io/github/amatheo/timelinefx/animation/PropertyChannel.java:56-77 | sampling depends on the time only through `remapTime` |
| Channels.SampleSegment | src/main/java/io/github/amatheo/timelinefx/animation/PropertyChannel.java:55-77 | a sample on a channel of two or more keyframes is the segment value of the first segment bracketing the remapped time, with raw progress in [0, 1] |
| Channels.HoldExtrapolation | src/main/java/io/github/amatheo/timelinefx/animation/PropertyChannel.java:83-98 | HOLD before the start samples as the start; HOLD after the end samples as the end |
| Channels.LoopRemap | src/main/java/io/github/amatheo/timelinefx/animation/PropertyChannel.java:86-99 | after the end, LOOP remaps by `loopTime` |
| Channels.LoopRemapPeriodic | src/main/java/io/github/amatheo/timelinefx/animation/PropertyChannel.java:99-110 | a time k whole durations past first + x (0 <= x < duration) remaps to first + x |
| Channels.LoopExtrapolation | src/main/java/io/github/amatheo/timelinefx/animation/PropertyChannel.java:99-110 | LOOP after the last keyframe samples like the matching time inside the range |
| Channels.PingPongExtrapolation | src/main/java/io/github/amatheo/timelinefx/animation/PropertyChannel.java:100-123 | PING_PONG after the end samples end + x like end - x |
| Channels.Builder.constructor | src/main/java/io/github/amatheo/timelinefx/animation/PropertyChannel.java:131-135 | a new channel builder has no keyframes, no interpolator and HOLD on both sides |
| Channels.Builder.SetInterpolator | src/main/java/io/github/amatheo/timelinefx/animation/PropertyChannel.java:137-140 | only the interpolator changes |
| Channels.Builder.SetPreBehavior | src/main/java/io/github/amatheo/timelinefx/animation/PropertyChannel.java:142-145 | only the pre-behaviour changes |
| Channels.Builder.SetPostBehavior | src/main/java/io/github/amatheo/timelinefx/animation/PropertyChannel.java:147-150 | only the post-behaviour changes |
| Channels.Builder.Add | src/main/java/io/github/amatheo/timelinefx/animation/PropertyChannel.java:152-155 | exactly one keyframe is appended at the end |
| Channels.Builder.Build | src/main/java/io/github/amatheo/timelinefx/animation/PropertyChannel.java:157-162 | a missing interpolator is an illegal state; otherwise the result is the constructor's |
| Channels.LinearDoubleExample | src/test/java/io/github/amatheo/timelinefx/animation/PropertyChannelDoubleTest.java:9-16 | linear doubles 0 to 10 over one second sample 5 at 0.5 s |
| Channels.HermiteDoubleExample | src/test/java/io/github/amatheo/timelinefx/animation/PropertyChannelDoubleTest.java:19-32 | Hermite doubles from 0 (out-tangent 2) to 1 (in-tangent 0) sample 0.75 at 0.5 s |
| Sorting.SortByProperties | src/main/java/io/github/amatheo/timelinefx/animation/PropertyChannel.java:25-29 | the stable sort by a key returns a list in key order, of the same length, a permutation of the input, and with the elements of each key in their original order |
| Sorting.SortBySorted | src/main/java/com/github/amatheo/timelinefx/animation/timeline/TimelineTrack.java:27-31 | sorting a list already in key order leaves it unchanged |
| Sorting.InsertWithKey | src/main/java/io/github/amatheo/timelinefx/animation/PropertyChannel.java:27 | inserting one element into a sorted list places it after every element of the same key |
| Tracks.MakeSegment | src/main/java/com/github/amatheo/timelinefx/animation/timeline/TimelineTrack.java:84-90 | a segment is built exactly when the channel is not null, holding the start and channel; a null channel is a null-pointer failure |
| Tracks.SegmentLocalTime | src/main/java/com/github/amatheo/timelinefx/animation/timeline/TimelineTrack.java:92-99 | a segment played at start + x samples its channel at the channel's first keyframe time + x; at the segment's end it samples the channel's last keyframe time |
| Tracks.MakeTrackSpec | src/main/java/com/github/amatheo/timelinefx/animation/timeline/TimelineTrack.java:20-31 | a track is built exactly from a non-empty list (otherwise an illegal-argument failure); its segments are a stable sort by start of the input, and it is valid when every channel is |
| Tracks.ResolveFrom | src/main/java/com/github/amatheo/timelinefx/animation/timeline/TimelineTrack.java:56-65 | the scan's result is always an index into the segment list |
| Tracks.ResolveFromSpec | src/main/java/com/github/amatheo/timelinefx/animation/timeline/TimelineTrack.java:56-65 | continuing the scan from a segment starting at or before t ends on a segment starting at or before t with every later one starting after t |
| Tracks.ResolveIndexSpec | src/main/java/com/github/amatheo/timelinefx/animation/timeline/TimelineTrack.java:56-65 | on sorted segments the lookup picks the last segment starting at or before t, or the first segment when t precedes them all |
| Tracks.ResolveSegment | src/main/java/com/github/amatheo/timelinefx/animation/timeline/TimelineTrack.java:56-65 | the for-each loop with its break returns the segment `ResolveIndex` names |
| Tracks.Get | src/main/java/com/github/amatheo/timelinefx/animation/timeline/TimelineTrack.java:50-54 | the track's value is the resolved segment sampled at the timeline time |
| Tracks.TrackUsesSegment | src/main/java/com/github/amatheo/timelinefx/animation/timeline/TimelineTrack.java:11-16 | between the start of segment k and the start of the next, and before the first start for k = 0, the track plays segment k |
| Tracks.TrackBuilder.constructor | src/main/java/com/github/amatheo/timelinefx/animation/timeline/TimelineTrack.java:71-72 | a new track builder holds no segments |
| Tracks.TrackBuilder.Add | src/main/java/com/github/amatheo/timelinefx/animation/timeline/TimelineTrack.java:74-77 | appends exactly one segment, or returns the segment constructor's null-channel failure and changes nothing |
| Tracks.TrackBuilder.Build | src/main/java/com/github/amatheo/timelinefx/animation/timeline/TimelineTrack.java:79-81 | building is the track constructor on the segments in insertion order |
| Tracks.LinearSample | src/test/java/io/github/amatheo/timelinefx/animation/timeline/TimelineTrackTest.java:13-21 | the two-keyframe linear double channel used by the track example interpolates linearly on [0, 1] and holds outside it |
| Tracks.LinearValid | src/test/java/io/github/amatheo/timelinefx/animation/timeline/TimelineTrackTest.java:13-21 | that channel is valid |
| Tracks.ExampleTrackBuilt | src/test/java/io/github/amatheo/timelinefx/animation/timeline/TimelineTrackTest.java:23-26 | the example track keeps its two segments in the order added and is valid |
| Tracks.ExampleTrackSamples | src/test/java/io/github/amatheo/timelinefx/animation/timeline/TimelineTrackTest.java:28-31 | the example track samples 0 at -1 s, 5 at 0.5 s, 15 at 1.5 s and 20 at 3 s |
| Tracks.ExampleAt | src/test/java/io/github/amatheo/timelinefx/animation/timeline/TimelineTrackTest.java:28-31 | each of the four example points samples its expected value on its segment |
| Timelines.MaxEndSpec | src/main/java/com/github/amatheo/timelinefx/animation/timeline/Timeline.java:29-38 | the duration is never negative, no track ends after it, and it is either zero or the end of some track |
| Timelines.ComputeDuration | src/main/java/com/github/amatheo/timelinefx/animation/timeline/Timeline.java:29-38 | the for-each loop keeping the running maximum from 0 computes `MaxEnd` |
| Timelines.MakeTimeline | src/main/java/com/github/amatheo/timelinefx/animation/timeline/Timeline.java:14-27 | a timeline is built exactly from a non-empty entry list (otherwise an illegal-argument failure), keeps the entries in order, and its duration is non-negative, at least every track's end, and either 0 or some track's end |
| Timelines.FindTrackSpec | src/main/java/com/github/amatheo/timelinefx/animation/timeline/Timeline.java:44-53 | `track(p)` is null exactly when no entry has the property; otherwise it is the track of the first entry that does |
| Timelines.Track | src/main/java/com/github/amatheo/timelinefx/animation/timeline/Timeline.java:44-53 | the loop with its early return computes `FindTrack` |
| Timelines.SampleAllSpec | src/main/java/com/github/amatheo/timelinefx/animation/timeline/Timeline.java:55-68 | the snapshot holds exactly the timeline's properties, each with the sample of the last entry for it |
| Timelines.Get | src/main/java/com/github/amatheo/timelinefx/animation/timeline/Timeline.java:55-62 | the loop filling the map computes `Sample`: every track sampled at t, with the time recorded |
| Timelines.SampleAny | src/main/java/com/github/amatheo/timelinefx/animation/timeline/Timeline.java:64-68 | one entry's track sampled at t and boxed |
| Timelines.SnapshotMatchesTrack | src/main/java/com/github/amatheo/timelinefx/animation/timeline/Timeline.java:44-68 | when properties are distinct, a property is in the snapshot exactly when `track(p)` finds it, and the snapshot's value is that track's sample |
| Timelines.DuplicatePropertyExample | src/main/java/com/github/amatheo/timelinefx/animation/timeline/Timeline.java:44-68 | with two entries for one property, `track(p)` returns the first track while the snapshot stores the second one's sample |
| Values.MakeProperty | src/main/java/com/github/amatheo/timelinefx/animation/timeline/TimelineProperty.java:8-17 | a property is created exactly when the id has a non-whitespace character, keeping the id; a blank id is an illegal-argument failure |
| Values.BlankExamples | src/main/java/com/github/amatheo/timelinefx/animation/timeline/TimelineProperty.java:8-17 | the empty id and an all-whitespace id are refused; `radius` is accepted as itself |
| Values.Get | src/main/java/com/github/amatheo/timelinefx/animation/timeline/TimelineSnapshot.java:21-26 | a property present in the snapshot reads its stored value; an absent one reads null |
| Values.GetOrDefault | src/main/java/com/github/amatheo/timelinefx/animation/timeline/TimelineSnapshot.java:28-31 | a present non-null value is returned; an absent property or a null value gives the fallback |
| Values.ProvideSpec | src/main/java/com/github/amatheo/timelinefx/animation/value/AnimatedValue.java:27-31 | a constant provider ignores the snapshot; an animated provider reads its property, and falls back to its default for a null snapshot, a missing property or a null value |
| Values.AnimatedNoDefault | src/main/java/com/github/amatheo/timelinefx/animation/value/AnimatedValue.java:22-25 | the one-argument animated provider reads the property and has a null default |
| Playback.TotalCycles | src/main/java/com/github/amatheo/timelinefx/animation/timeline/TimelinePlayback.java:10-23 | the intended cycle count: -1 for infinite looping, otherwise the first playthrough plus each additional loop, always at least one |
| Playback.TotalCyclesAgree | src/main/java/com/github/amatheo/timelinefx/animation/timeline/TimelinePlayback.java:23 | the 32-bit computation as written agrees with the intended count for every loop count below `Integer.MAX_VALUE` |
| Playback.TotalCyclesOverflowExample | src/main/java/com/github/amatheo/timelinefx/animation/timeline/TimelinePlayback.java:23 | `loopCount(Integer.MAX_VALUE)` wraps `extraLoops + 1` to `Integer.MIN_VALUE`, so the playback as written plays once instead of 2^31 times |
| Playback.WrapBounds | src/main/java/com/github/amatheo/timelinefx/animation/timeline/TimelinePlayback.java:110-119 | `wrap` lands in [0, span) and differs from the value by a whole number of spans |
| Playback.InfiniteNeverFinishes | src/main/java/com/github/amatheo/timelinefx/animation/timeline/TimelinePlayback.java:68-89 | infinite looping never reports finished, with or without duration |
| Playback.FiniteFinishes | src/main/java/com/github/amatheo/timelinefx/animation/timeline/TimelinePlayback.java:68-96 | finite playback reports finished exactly once the time reaches the total of all cycles and the delays between them |
| Playback.FloorOfWholeSpans | src/main/java/com/github/amatheo/timelinefx/animation/timeline/TimelinePlayback.java:102 | the cycle index of k whole spans plus an offset within one span is k |
| Playback.FiniteTotalSplit | src/main/java/com/github/amatheo/timelinefx/animation/timeline/TimelinePlayback.java:93 | the total ends one duration after the start of the last cycle |
| Playback.FiniteAt | src/main/java/com/github/amatheo/timelinefx/animation/timeline/TimelinePlayback.java:98-107 | before the total, the result is the offset into the floor-indexed cycle, held at the duration during the loop delay |
| Playback.CycleBeforeTotal | src/main/java/com/github/amatheo/timelinefx/animation/timeline/TimelinePlayback.java:93-96 | every offset of every cycle except the last one's delay precedes the total |
| Playback.FiniteCycle | src/main/java/com/github/amatheo/timelinefx/animation/timeline/TimelinePlayback.java:91-107 | within cycle k at offset x the timeline plays x, or holds its end during the loop delay, and is not finished |
| Playback.WrapPeriodic | src/main/java/com/github/amatheo/timelinefx/animation/timeline/TimelinePlayback.java:110-119 | `wrap` is periodic with period `span` |
| Playback.InfinitePeriodic | src/main/java/com/github/amatheo/timelinefx/animation/timeline/TimelinePlayback.java:79-89 | infinite playback repeats with the period of one duration plus one loop delay |
| Playback.InfiniteInRange | src/main/java/com/github/amatheo/timelinefx/animation/timeline/TimelinePlayback.java:79-89 | infinite playback maps every time into [0, duration] |
| Playback.CycleIndexBounds | src/main/java/com/github/amatheo/timelinefx/animation/timeline/TimelinePlayback.java:102-103 | before the total the cycle index lies in [0, cycles) and the offset in [0, span) |
| Playback.FiniteInRange | src/main/java/com/github/amatheo/timelinefx/animation/timeline/TimelinePlayback.java:91-107 | finite playback maps every non-negative time into [0, duration] |
| Playback.MapTimeInRange | src/main/java/com/github/amatheo/timelinefx/animation/timeline/TimelinePlayback.java:68-108 | `mapTime` maps every non-negative playback time into [0, duration] |
| Playback.TwoCycleExample | src/main/java/com/github/amatheo/timelinefx/animation/timeline/TimelinePlayback.java:91-107 | two 2-second cycles without delay: 1 s and 3 s both play 1 s; 4 s and later are the end, finished |
| Playback.PlaybackBuilder.constructor | src/main/java/com/github/amatheo/timelinefx/animation/timeline/TimelinePlayback.java:124-134 | a new playback builder has speed 1, no delays, no extra loops and finite looping |
| Playback.PlaybackBuilder.Speed | src/main/java/com/github/amatheo/timelinefx/animation/timeline/TimelinePlayback.java:136-142 | a speed that is not positive is refused with an illegal-argument failure and nothing changes; otherwise only the speed changes |
| Playback.PlaybackBuilder.DelaySeconds | src/main/java/com/github/amatheo/timelinefx/animation/timeline/TimelinePlayback.java:144-150 | a negative start delay is refused; otherwise only the start delay changes |
| Playback.PlaybackBuilder.LoopCount | src/main/java/com/github/amatheo/timelinefx/animation/timeline/TimelinePlayback.java:152-159 | a negative count is refused; otherwise the extra loops are set and infinite looping is turned off |
| Playback.PlaybackBuilder.LoopInfinite | src/main/java/com/github/amatheo/timelinefx/animation/timeline/TimelinePlayback.java:161-164 | only the infinite flag changes, to on |
| Playback.PlaybackBuilder.LoopDelaySeconds | src/main/java/com/github/amatheo/timelinefx/animation/timeline/TimelinePlayback.java:166-172 | a negative loop delay is refused; otherwise only the loop delay changes |
| Playback.PlaybackBuilder.Build | src/main/java/com/github/amatheo/timelinefx/animation/timeline/TimelinePlayback.java:174-176 | a fresh playback with the builder's settings, the intended cycle count, the duration clamped at zero, not started, not finished and no snapshot |
| Playback.TimelinePlayback.constructor | src/main/java/com/github/amatheo/timelinefx/animation/timeline/TimelinePlayback.java:14-26 | the playback copies the settings, computes the cycle count and clamps the duration at zero; it is not started |
| Playback.TimelinePlayback.Start | src/main/java/com/github/amatheo/timelinefx/animation/timeline/TimelinePlayback.java:32-36 | restarting sets the start tick, clears finished and forgets the last snapshot |
| Playback.TimelinePlayback.Sample | src/main/java/com/github/amatheo/timelinefx/animation/timeline/TimelinePlayback.java:38-58 | before the start and during the start delay the last snapshot is returned and nothing changes; otherwise the timeline is sampled at the mapped time, that snapshot becomes the last one, and finished is set once `mapTime` reports the end and never cleared |
| Playback.PlayTimeInRange | src/main/java/com/github/amatheo/timelinefx/animation/timeline/TimelinePlayback.java:43-50 | a playing time is never negative, so every sampled timeline time lies in [0, duration] |
| Params.FromValues | src/main/java/com/github/amatheo/timelinefx/effect/EvaluatedParams.java:19-24 | a null or empty map gives the empty parameters; otherwise the result is a copy of the map, made exactly when no value is null (`Map.copyOf` throws a null-pointer error otherwise); every result holds no null value |
| Params.Raw | src/main/java/com/github/amatheo/timelinefx/effect/EvaluatedParams.java:74-76 | a missing key reads as null, a present one as its value |
| Params.GetRaw | src/main/java/com/github/amatheo/timelinefx/effect/EvaluatedParams.java:30-34 | a missing key and a null value both give the default; anything else is returned as stored |
| Params.GetDouble | src/main/java/com/github/amatheo/timelinefx/effect/EvaluatedParams.java:37-41 | any number (int, long, float, double) is converted to a double; a missing key or a value of any other type, a numeric string included, gives the default |
| Params.GetInt | src/main/java/com/github/amatheo/timelinefx/effect/EvaluatedParams.java:43-47 | any number is converted by `Number.intValue()` (a long keeps its low 32 bits, a double is truncated and saturated); anything else gives the default |
| Params.GetBool | src/main/java/com/github/amatheo/timelinefx/effect/EvaluatedParams.java:49-53 | only a Boolean is read; anything else gives the default |
| Params.GetVec3 | src/main/java/com/github/amatheo/timelinefx/effect/EvaluatedParams.java:55-62 | a vector is returned as is; a list of exactly three numbers of any kinds becomes a vector of their double values; anything else gives the default |
| Params.GetColor | src/main/java/com/github/amatheo/timelinefx/effect/EvaluatedParams.java:64-68 | only a color is read; anything else gives the default |
| Params.StringsAreNotNumbers | src/main/java/com/github/amatheo/timelinefx/effect/EvaluatedParams.java:37-47 | a numeric string is not a number: the double and int getters give their defaults while `getRaw` returns the string |
| Params.GetIntConversions | src/main/java/com/github/amatheo/timelinefx/effect/EvaluatedParams.java:43-47 | `getInt` truncates -2.75 to -2 and reads the long 2^32 + 5 as 5 |
| Params.GetVec3Lists | src/main/java/com/github/amatheo/timelinefx/effect/EvaluatedParams.java:55-62 | a list of an int, a double and a long reads as a vector; a list of two numbers, or of three items with a string among them, gives the default |
| Values.IntValue | src/main/java/com/github/amatheo/timelinefx/effect/EvaluatedParams.java:43-47 | `Number.intValue()` always yields a 32-bit int and keeps an int as it is |
| Values.LongValue | src/main/java/io/github/amatheo/timelinefx/effect/PropertyBinder.java:177-197 | `Number.longValue()` always yields a 64-bit long and keeps an int or long as it is |
| Particles.PooledParticleBuffer.constructor | src/main/java/com/github/amatheo/timelinefx/particle/impl/PooledParticleBuffer.java:16-22 | the pool holds max(16, initialCapacity) blank vertices and nothing is active |
| Particles.PooledParticleBuffer.Clear | src/main/java/com/github/amatheo/timelinefx/particle/impl/PooledParticleBuffer.java:24-26 | only the active count is reset to zero; the pool is kept |
| Particles.PooledParticleBuffer.GetNext | src/main/java/com/github/amatheo/timelinefx/particle/impl/PooledParticleBuffer.java:51-57 | the returned index is the old active count, which grows by one; the pool grows by one blank vertex exactly when it was full |
| Particles.PooledParticleBuffer.Add | src/main/java/com/github/amatheo/timelinefx/particle/impl/PooledParticleBuffer.java:28-35 | the view grows by exactly one vertex at the given position, with the type and no velocity or data; the pooled vertex at that index is overwritten, and the pool grows only when it was full |
| Particles.PooledParticleBuffer.AddWithVelocity | src/main/java/com/github/amatheo/timelinefx/particle/impl/PooledParticleBuffer.java:37-44 | as `Add`, with the given (possibly null) velocity stored |
| Particles.PooledParticleBuffer.EnsureCapacity | src/main/java/com/github/amatheo/timelinefx/particle/impl/PooledParticleBuffer.java:68-73 | blank vertices are appended until the pool holds at least the requested number; the existing vertices and the active count are untouched |
| Binder.Convert | src/main/java/io/github/amatheo/timelinefx/effect/PropertyBinder.java:181-186 | a number converted to the field's kind stays a number; to an int it is a 32-bit int, to a long a 64-bit long, to a double its double value |
| Binder.ExtractNumber | src/main/java/io/github/amatheo/timelinefx/effect/PropertyBinder.java:177-197 | a missing key is absent; a null value is extracted as null; a number is converted to the field's kind; any other extracted value comes from parsing a non-empty string; everything else is absent |
| Binder.ExtractBool | src/main/java/io/github/amatheo/timelinefx/effect/PropertyBinder.java:199-209 | a missing key is absent; whatever is extracted is null or a Boolean; a Boolean is extracted as itself |
| Binder.Extract | src/main/java/io/github/amatheo/timelinefx/effect/PropertyBinder.java:161-175 | whatever the field type, a key missing from the parameters is absent |
| Binder.BoundFields | src/main/java/io/github/amatheo/timelinefx/effect/PropertyBinder.java:138-157 | each field after binding holds the extracted value if any, else its default when it is unset and has one, else its old value |
| Binder.NewValueIdempotent | src/main/java/io/github/amatheo/timelinefx/effect/PropertyBinder.java:138-157 | binding one field a second time with the same parameters leaves it as the first binding did |
| Binder.BindTwiceChangesNothing | src/main/java/io/github/amatheo/timelinefx/effect/PropertyBinder.java:124-132 | binding all fields twice with the same parameters equals binding them once |
| Binder.AbsentKeepsOrDefaults | src/main/java/io/github/amatheo/timelinefx/effect/PropertyBinder.java:141-156 | with null parameters or a missing key only the default applies: an unset field with a default takes it, any other field is kept |
| Binder.ExtractionExamples | src/main/java/io/github/amatheo/timelinefx/effect/PropertyBinder.java:187-208 | `TRUE`, `fAlSe` and a false spelled with the long s are read as Booleans ignoring case; `yes` is not; an empty string is not parsed as a number; the double 2.9 binds to an int field as 2 |
| Binder.EffectInstance.constructor | src/main/java/io/github/amatheo/timelinefx/effect/PropertyBinder.java:132-136 | an instance holds one value per annotated field of its schema |
| Binder.BindPropertiesAndDetectChanges | src/main/java/io/github/amatheo/timelinefx/effect/PropertyBinder.java:132-159 | a null instance reports no change; otherwise every field ends as `BoundFields` says, and the result is true exactly when some field changed |
| Binder.VerticesOf | src/main/java/io/github/amatheo/timelinefx/effect/AnimatedEffect.java:24-26 | the emitted particles become buffer vertices one for one, in order |
| Binder.SecondSampleSkips | src/main/java/io/github/amatheo/timelinefx/effect/AnimatedEffect.java:18-23 | sampling again with the same parameters binds no change, so an effect that has rendered and does not use the context skips rendering |
| Binder.AnimatedEffect.constructor | src/main/java/io/github/amatheo/timelinefx/effect/AnimatedEffect.java:15 | a new effect has not rendered yet |
| Binder.AnimatedEffect.Sample | src/main/java/io/github/amatheo/timelinefx/effect/AnimatedEffect.java:17-27 | binding runs on every call; the buffer is cleared and refilled with exactly the rendered particles when a field changed, the effect uses the context, or it has never rendered; otherwise the buffer and the flag are untouched |
| Clips.LayerParams | src/main/java/com/github/amatheo/timelinefx/core/EffectClip.java:130-137 | the merged parameters hold the keys of both maps; a layer's own value wins over the root's, and a root key the layer does not set keeps the root's value |
| Clips.LayerEvaluated | src/main/java/com/github/amatheo/timelinefx/core/EffectClip.java:140 | copying the merged parameters into `EvaluatedParams` succeeds with exactly the merged map whenever neither side holds a null, and can only fail with a null-pointer failure |
| Clips.Layer.constructor | src/main/java/com/github/amatheo/timelinefx/core/EffectClip.java:96-105 | the layer keeps its effect, bindings and audience and owns two distinct fresh buffers of `max(16, bufferCapacity)` vertices, none active; A is written first and B read |
| Clips.Layer.SwapBuffers | src/main/java/com/github/amatheo/timelinefx/core/EffectClip.java:114-118 | the read and write buffers trade places and the layer stays valid |
| Clips.Layer.Render | src/main/java/com/github/amatheo/timelinefx/core/EffectClip.java:120-148 | the frame handed over is the read buffer as it was before the call, placed at the parent transform composed with the local bindings' transform, shown to the layer's audience or else the clip's; the effect's fields are bound from the merged parameters; the written buffer then holds the effect's particles when it rendered and is untouched when it skipped; and the buffers are swapped |
| Clips.EvaluateRoot | src/main/java/com/github/amatheo/timelinefx/core/EffectClip.java:66-68 | the root result is the bindings' evaluation of the snapshot and holds no null parameter |
| Clips.SamplePlayback | src/main/java/com/github/amatheo/timelinefx/core/EffectClip.java:62 | the clip's sample is exactly the playback's `sample`: start tick kept, last snapshot and finished flag as the playback specifies |
| Clips.RenderInClip | src/main/java/com/github/amatheo/timelinefx/core/EffectClip.java:72 | one layer's render as the tick loop uses it: the previous read buffer is shown at the composed transform and the buffers are swapped |
| Clips.LayerStep | src/main/java/com/github/amatheo/timelinefx/core/EffectClip.java:142-147 | on buffer contents, one tick shows the read buffer, makes it the write buffer, and promotes what was written (the new particles, or the old write buffer on a skip) to the read side |
| Clips.ShownOver | src/main/java/com/github/amatheo/timelinefx/core/EffectClip.java:142-147 | one frame is shown per tick |
| Clips.Skips | src/main/java/com/github/amatheo/timelinefx/core/EffectClip.java:142 | a run of n ticks on which the effect skips rendering |
| Clips.StaticEffectAlternates | src/main/java/com/github/amatheo/timelinefx/core/EffectClip.java:139-147 | an effect that renders once and then always skips is shown with its particles only on every other tick, starting with the second; the other ticks show the empty buffer |
| Clips.AlternatesFrom | src/main/java/com/github/amatheo/timelinefx/core/EffectClip.java:142-147 | when the effect keeps skipping, the rendered buffer is shown on alternate ticks from any starting phase |
| Clips.NotOwned | src/main/java/com/github/amatheo/timelinefx/core/EffectClip.java:25-27 | the layers own neither the clip nor its playback, so rendering a layer cannot change them |
| Clips.EffectClip.constructor | src/main/java/com/github/amatheo/timelinefx/core/EffectClip.java:31-45 | the clip keeps its playback, root bindings and layers, a missing audience becomes the empty one, and it starts stopped (`startedAtTick == -1`) |
| Clips.EffectClip.Start | src/main/java/com/github/amatheo/timelinefx/core/EffectClip.java:51-55 | the start tick is recorded and the playback restarts there: unfinished, with no last snapshot |
| Clips.EffectClip.Stop | src/main/java/com/github/amatheo/timelinefx/core/EffectClip.java:81-84 | the clip is stopped and nothing else changes, the playback included |
| Clips.EffectClip.Tick | src/main/java/com/github/amatheo/timelinefx/core/EffectClip.java:57-74 | before start or after stop nothing happens and no frame is rendered; otherwise the playback is sampled as it specifies; with no snapshot nothing is rendered; with one every layer, in order, hands over the frame of its previous read buffer at the root-composed transform and swaps its buffers |
| Clips.EffectClip.SampleClip | src/main/java/com/github/amatheo/timelinefx/core/EffectClip.java:61-63 | sampling changes only the playback, as `sample` specifies, and leaves every layer's buffers as they were |
| Clips.EffectClip.RenderLayers | src/main/java/com/github/amatheo/timelinefx/core/EffectClip.java:71-73 | the layer loop leaves the playback untouched, yields one frame per layer in order, each the frame of that layer's previous read buffer, and swaps every layer's buffers |
| Clips.ApplySetting | src/main/java/com/github/amatheo/timelinefx/animation/timeline/TimelinePlayback.java:136-172 | a refused setter argument fails with an illegal-argument failure; an accepted call keeps the configuration one a playback can be built from |
| Clips.ApplySettingsAppend | src/main/java/com/github/amatheo/timelinefx/core/EffectClipBuilder.java:98-100 | running the configurators' calls one more call at a time: a refusal so far stays the outcome, otherwise the next call is applied |
| Clips.ApplySettingsValid | src/main/java/com/github/amatheo/timelinefx/core/EffectClipBuilder.java:97-101 | a configuration reached without refusal is buildable, and the only failure a configurator's setters raise is an illegal argument |
| Clips.SettingsExamples | src/main/java/com/github/amatheo/timelinefx/animation/timeline/TimelinePlayback.java:136-172 | later settings override earlier ones (`loopCount` after `loopInfinite` turns looping finite) and the first refused argument is the failure reported |
| Clips.BuildEmptyBindings | src/main/java/com/github/amatheo/timelinefx/core/EffectClipBuilder.java:80-82 | the default root bindings are what an unconfigured `TimelineBindings.builder()` builds: the identity seed transform and a single transform binding that sets nothing |
| Clips.EffectClipBuilder.constructor | src/main/java/com/github/amatheo/timelinefx/core/EffectClipBuilder.java:19-24 | a new builder has no timeline, playback, root bindings or audience, and no configurators or layers |
| Clips.EffectClipBuilder.Timeline | src/main/java/com/github/amatheo/timelinefx/core/EffectClipBuilder.java:26-29 | only the timeline is set, a null argument clearing it |
| Clips.EffectClipBuilder.Playback | src/main/java/com/github/amatheo/timelinefx/core/EffectClipBuilder.java:31-34 | only the explicit playback is set |
| Clips.EffectClipBuilder.ConfigurePlayback | src/main/java/com/github/amatheo/timelinefx/core/EffectClipBuilder.java:36-39 | the configurator is appended and nothing else changes |
| Clips.EffectClipBuilder.RootBindings | src/main/java/com/github/amatheo/timelinefx/core/EffectClipBuilder.java:41-44 | only the root bindings are set, a null argument clearing them |
| Clips.EffectClipBuilder.Layer | src/main/java/com/github/amatheo/timelinefx/core/EffectClipBuilder.java:53-58 | the layer's settings are appended in registration order and nothing else changes |
| Clips.EffectClipBuilder.Players | src/main/java/com/github/amatheo/timelinefx/core/EffectClipBuilder.java:60-63 | the audience list is stored as given, absent included, and nothing else changes |
| Clips.EffectClipBuilder.AddPlayer | src/main/java/com/github/amatheo/timelinefx/core/EffectClipBuilder.java:65-73 | an absent audience starts empty and the player is appended; the list is one that can grow afterwards; nothing else changes |
| Clips.EffectClipBuilder.ResolvePlayback | src/main/java/com/github/amatheo/timelinefx/core/EffectClipBuilder.java:92-102 | an explicit playback wins; without one a missing timeline is a null-pointer failure; otherwise the configurators' setter calls run in order on a fresh playback builder, the first refusal is the failure, and else the result is a fresh unstarted playback of that timeline with the configured speed, delays and cycle count |
| Clips.EffectClipBuilder.Build | src/main/java/com/github/amatheo/timelinefx/core/EffectClipBuilder.java:75-102 | no layers fails with an illegal-state failure and is the only illegal-state failure; a missing playback and timeline is a null-pointer failure; a configurator setter refusal is an illegal-argument failure; once the playback resolves, the build fails exactly when some layer has no effect, with the null-pointer failure for `effect`; so it succeeds exactly when there are layers, the playback resolves and every layer has an effect; a built clip is fresh and stopped, with the given or empty root bindings, the given or empty audience, one layer built from each layer setting in order, and either the given playback or a fresh unstarted one of the timeline with the configured speed, delays and cycle count |
| Clips.ApplyOne | src/main/java/com/github/amatheo/timelinefx/animation/timeline/TimelinePlayback.java:136-172 | one setter call on a real playback builder has the outcome `ApplySetting` gives for the builder's configuration |
| Clips.ApplyConfigurator | src/main/java/com/github/amatheo/timelinefx/core/EffectClipBuilder.java:98-100 | one configurator's calls on a builder leave it where `ApplySettings` of all the calls so far says, or fail as it says |
| Clips.BuildLayers | src/main/java/io/github/amatheo/timelinefx/core/LayerBuilder.java:60-66 | the layers are built in order, one per setting, owning disjoint buffers; the loop fails with a null-pointer failure exactly when some setting has no effect; each layer is built from its setting with the empty bindings when none were given |
| Clips.ErrPersists | src/main/java/com/github/amatheo/timelinefx/core/EffectClipBuilder.java:98-101 | once a setter is refused, later configurator calls do not change the outcome |
| Orchestration.Completions | src/main/java/io/github/amatheo/timelinefx/orchestration/Sequence.java:62-67 | the number of times the completion callback ran in a list of calls: zero exactly when it never ran |
| Orchestration.CompletionsAppend | src/main/java/io/github/amatheo/timelinefx/orchestration/Sequence.java:62-67 | callback runs add up over consecutive stretches of calls |
| Orchestration.SeqFire | src/main/java/io/github/amatheo/timelinefx/orchestration/Sequence.java:62-67 | the callback runs, once, exactly when it has not run since the last start, there is one, and the index is past the last child; the flag then records it and the index is untouched |
| Orchestration.SeqStartStep | src/main/java/io/github/amatheo/timelinefx/orchestration/Sequence.java:30-36 | start re-arms completion, sets the index to 0 and starts only the first child, and no child when there are none |
| Orchestration.SeqTickStep | src/main/java/io/github/amatheo/timelinefx/orchestration/Sequence.java:38-51 | an index out of range does nothing; otherwise the current child is ticked; if it is not then done nothing else happens; if it is, it is stopped, the index advances and the next child is started, or after the last child completion may fire |
| Orchestration.SeqStopStep | src/main/java/io/github/amatheo/timelinefx/orchestration/Sequence.java:57-60 | stop stops the current child when the index is in range, then completion may fire; the index is unchanged |
| Orchestration.SeqStepCompletion | src/main/java/io/github/amatheo/timelinefx/orchestration/Sequence.java:38-67 | one tick or stop runs the callback at most once and only when it had not run, records that in the flag, never moves the index back, and runs it only past the end with a callback present |
| Orchestration.SeqCompletesAtMostOnce | src/main/java/io/github/amatheo/timelinefx/orchestration/Sequence.java:38-67 | over any run of ticks and stops between two starts the callback runs at most once, only past the end, and the flag afterwards says whether it ran |
| Orchestration.DoneTicks | src/main/java/io/github/amatheo/timelinefx/orchestration/Sequence.java:42 | n ticks on each of which the current child is done |
| Orchestration.SeqAdvances | src/main/java/io/github/amatheo/timelinefx/orchestration/Sequence.java:38-51 | when each child is done on its first tick, n ticks move the index n children on, and the callback has run exactly when the last child finished and there is a callback |
| Orchestration.EmptySequenceCompletesOnStop | src/main/java/io/github/amatheo/timelinefx/orchestration/Sequence.java:30-67 | a started sequence without children is done, yet a tick does nothing; only stop runs the callback |
| Orchestration.Sequence.constructor | src/main/java/io/github/amatheo/timelinefx/orchestration/Sequence.java:18-28 | a new sequence is not started (index -1), has not fired, has made no call and is not done |
| Orchestration.Sequence.Start | src/main/java/io/github/amatheo/timelinefx/orchestration/Sequence.java:30-36 | the state and the calls made are those of the start step |
| Orchestration.Sequence.Tick | src/main/java/io/github/amatheo/timelinefx/orchestration/Sequence.java:38-51 | the state and the calls made are those of the tick step for the current child's answer |
| Orchestration.Sequence.Stop | src/main/java/io/github/amatheo/timelinefx/orchestration/Sequence.java:57-60 | the state and the calls made are those of the stop step |
| Orchestration.Sequence.FireIfNeeded | src/main/java/io/github/amatheo/timelinefx/orchestration/Sequence.java:62-67 | the flag and the calls made are those `SeqFire` specifies |
| Orchestration.ToAll | src/main/java/com/github/amatheo/timelinefx/orchestration/Parallel.java:41 | the same call made on every child, in list order |
| Orchestration.ParFire | src/main/java/com/github/amatheo/timelinefx/orchestration/Parallel.java:58-63 | the callback runs, once, exactly when it has not run since the last start, there is one, and every child reports done; the flag then records it |
| Orchestration.ToAllNoCompletion | src/main/java/com/github/amatheo/timelinefx/orchestration/Parallel.java:41-54 | calling every child never runs the completion callback |
| Orchestration.ParCompletesAtMostOnce | src/main/java/com/github/amatheo/timelinefx/orchestration/Parallel.java:44-63 | over any run of ticks and stops between two starts the callback runs at most once, only after a call on which every child reported done, and the flag afterwards says whether it ran |
| Orchestration.EmptyParallelCompletesOnFirstTick | src/main/java/com/github/amatheo/timelinefx/orchestration/Parallel.java:44-63 | a block without children is done and its first tick runs the callback |
| Orchestration.Parallel.constructor | src/main/java/com/github/amatheo/timelinefx/orchestration/Parallel.java:23-26 | a new block has not fired and has made no call |
| Orchestration.Parallel.CallAll | src/main/java/com/github/amatheo/timelinefx/orchestration/Parallel.java:41 | the loop over the children makes the call on each in list order and leaves the flag alone |
| Orchestration.Parallel.Start | src/main/java/com/github/amatheo/timelinefx/orchestration/Parallel.java:39-42 | completion is re-armed and every child is started in order |
| Orchestration.Parallel.Tick | src/main/java/com/github/amatheo/timelinefx/orchestration/Parallel.java:44-47 | every child is ticked in order, then completion may fire as `ParFire` says |
| Orchestration.Parallel.Stop | src/main/java/com/github/amatheo/timelinefx/orchestration/Parallel.java:53-56 | every child is stopped in order, then completion may fire as `ParFire` says |
| Orchestration.Parallel.FireIfNeeded | src/main/java/com/github/amatheo/timelinefx/orchestration/Parallel.java:58-63 | the flag and the calls made are those `ParFire` specifies |
| Orchestration.WaitDone | src/main/java/io/github/amatheo/timelinefx/orchestration/WaitTicks.java:22-26 | a negative start is never done; a recorded start without a recorded context fails with a null dereference; otherwise done exactly when the 64-bit tick difference reaches the wait |
| Orchestration.UnstartedWaitFails | src/main/java/io/github/amatheo/timelinefx/orchestration/WaitTicks.java:8-26 | as written the start field begins at 0, so `isDone` before `start` gets past the guard and dereferences the null context |
| Orchestration.UnstartedWaitNotDone | src/main/java/io/github/amatheo/timelinefx/orchestration/WaitTicks.java:23 | with a start of -1 before `start`, a wait is not done and does not fail |
| Orchestration.WaitStart | src/main/java/io/github/amatheo/timelinefx/orchestration/WaitTicks.java:14-17 | start records the current tick and the context and keeps the wait length |
| Orchestration.StartedWaitNeverFails | src/main/java/io/github/amatheo/timelinefx/orchestration/WaitTicks.java:14-26 | once started, `isDone` always answers |
| Orchestration.NonPositiveWaitDoneAtStart | src/main/java/io/github/amatheo/timelinefx/orchestration/WaitTicks.java:22-26 | a wait of zero ticks or fewer is done at the tick it starts on |
| Orchestration.WaitStaysDone | src/main/java/io/github/amatheo/timelinefx/orchestration/WaitTicks.java:22-26 | on a clock that does not go back a wait once done stays done |
| Orchestration.WaitTicks.constructor | src/main/java/io/github/amatheo/timelinefx/orchestration/WaitTicks.java:10-12 | a new wait keeps its length and is unstarted, with a start of -1 and no context |
| Orchestration.WaitTicks.Start | src/main/java/io/github/amatheo/timelinefx/orchestration/WaitTicks.java:14-17 | the tick and the context are recorded as `WaitStart` says |
| Orchestration.WaitTicks.IsDone | src/main/java/io/github/amatheo/timelinefx/orchestration/WaitTicks.java:22-26 | the answer is `WaitDone` of the fields: done exactly when started and the 64-bit tick difference reaches the wait |
| Alchemy.Scramble | src/main/java/com/github/amatheo/timelinefx/effect/impl/AlchemyCircleEffect.java:369 | one generator step `(s * 125) % 2796203` on int: the product never wraps for a state in range, the sign is kept, and the result lies strictly inside the modulus |
| Alchemy.Scrambled | src/main/java/com/github/amatheo/timelinefx/effect/impl/AlchemyCircleEffect.java:369 | n steps keep the state in range and keep its sign |
| Alchemy.Seeded | src/main/java/com/github/amatheo/timelinefx/effect/impl/AlchemyCircleEffect.java:367-370 | the state `setSeed` leaves lies strictly inside the modulus |
| Alchemy.Pick | src/main/java/com/github/amatheo/timelinefx/effect/impl/AlchemyCircleEffect.java:374 | `getRand`'s value: a span that is 0 as a 32-bit int is a division by zero, and only then; from a non-negative state a value in `[min, max]`; from a negative state one at or below `min`, by Java's truncating remainder |
| Alchemy.Draws | src/main/java/com/github/amatheo/timelinefx/effect/impl/AlchemyCircleEffect.java:372-375 | one value per range drawn |
| Alchemy.DrawsFailOnEmptyRange | src/main/java/com/github/amatheo/timelinefx/effect/impl/AlchemyCircleEffect.java:372-375 | a draw of the run fails exactly when its range's 32-bit size `max - min + 1` is 0 |
| Alchemy.DrawsInRange | src/main/java/com/github/amatheo/timelinefx/effect/impl/AlchemyCircleEffect.java:372-375 | from a non-negative state every draw over a non-empty range of int size lies within that range |
| Alchemy.ScrambleZero | src/main/java/com/github/amatheo/timelinefx/effect/impl/AlchemyCircleEffect.java:369 | since 125 is invertible modulo the prime 2796203, a step yields 0 exactly from a multiple of the modulus |
| Alchemy.ScrambledZero | src/main/java/com/github/amatheo/timelinefx/effect/impl/AlchemyCircleEffect.java:369 | n steps yield 0 exactly when the start is a multiple of the modulus, or is 0 for no step |
| Alchemy.SeededSign | src/main/java/com/github/amatheo/timelinefx/effect/impl/AlchemyCircleEffect.java:367-370 | any seed but `Integer.MIN_VALUE` leaves a non-negative state, 0 exactly when `abs(seed) % 9999999 + 1` is a multiple of 2796203; `Integer.MIN_VALUE`, whose absolute value is itself, leaves a negative state |
| Alchemy.DegenerateSeed | src/main/java/com/github/amatheo/timelinefx/effect/impl/AlchemyCircleEffect.java:367-375 | seed 2796202 leaves state 0, after which every draw is its lower bound |
| Alchemy.CiaccoRandom.constructor | src/main/java/com/github/amatheo/timelinefx/effect/impl/AlchemyCircleEffect.java:365 | the state starts at 0 |
| Alchemy.CiaccoRandom.SetSeed | src/main/java/com/github/amatheo/timelinefx/effect/impl/AlchemyCircleEffect.java:367-370 | the state afterwards depends on the seed alone: it is `Seeded(seed)` |
| Alchemy.CiaccoRandom.GetRand | src/main/java/com/github/amatheo/timelinefx/effect/impl/AlchemyCircleEffect.java:372-375 | the state steps once, even on a division by zero, and the value is `Pick` of the new state |
| Alchemy.SeedAndDraw | src/main/java/com/github/amatheo/timelinefx/effect/impl/AlchemyCircleEffect.java:367-375 | seeding then drawing yields `Draws` of the seeded state: the values depend on the seed and the ranges alone, whatever state the generator had |
| Alchemy.BinaryDrawContext.constructor | src/main/java/com/github/amatheo/timelinefx/effect/impl/AlchemyCircleEffect.java:242-246 | the height is the number of rows, the width that of the first row, or 0 without rows |
| Alchemy.BinaryDrawContext.Set | src/main/java/com/github/amatheo/timelinefx/effect/impl/AlchemyCircleEffect.java:357-361 | a pixel inside the buffer is written and every other pixel is kept; a pixel outside leaves the buffer unchanged |
| Alchemy.BinaryDrawContext.DrawLine | src/main/java/com/github/amatheo/timelinefx/effect/impl/AlchemyCircleEffect.java:249-266 | Bresenham's loop terminates in every octant, lights both endpoints when they lie inside, and every pixel it changes is lit and lies within the rectangle the endpoints span |
| Alchemy.BinaryDrawContext.PlotCirclePoints | src/main/java/com/github/amatheo/timelinefx/effect/impl/AlchemyCircleEffect.java:337-346 | the eight points symmetric about the centre are lit where they lie inside, and no other pixel changes |
| Alchemy.BinaryDrawContext.DrawCircle | src/main/java/com/github/amatheo/timelinefx/effect/impl/AlchemyCircleEffect.java:269-282 | a negative radius draws nothing; otherwise the four points at the radius on the axes are lit and every pixel that changes is lit and within the radius of the centre on each axis |
| Alchemy.BinaryDrawContext.DrawFilledCircle | src/main/java/com/github/amatheo/timelinefx/effect/impl/AlchemyCircleEffect.java:285-293 | a negative radius draws nothing; otherwise the disk `x² + y² <= r²` is cleared, then the outline is drawn, so every pixel is either the cleared-or-kept value or a lit outline pixel within the radius |
| Alchemy.BinaryDrawContext.ClearDisk | src/main/java/com/github/amatheo/timelinefx/effect/impl/AlchemyCircleEffect.java:288-290 | the two clearing loops set exactly the pixels of the disk to off and keep every other pixel |
| Alchemy.RenderStep | src/main/java/com/github/amatheo/timelinefx/effect/impl/AlchemyCircleEffect.java:51-54 | the buffer is regenerated from the seed exactly when the seed differs from the last one; the seed is recorded |
| Alchemy.BufferTracksSeed | src/main/java/com/github/amatheo/timelinefx/effect/impl/AlchemyCircleEffect.java:39-58 | from a fresh effect the buffer is always the one generated from the current seed, and there is none exactly when every seed so far was `Integer.MIN_VALUE` |
| Alchemy.MinSeedNeverDraws | src/main/java/com/github/amatheo/timelinefx/effect/impl/AlchemyCircleEffect.java:39-58 | a fresh effect rendered only with seed `Integer.MIN_VALUE` never has a buffer, so it never draws |
| Alchemy.AlchemyCircle.constructor | src/main/java/com/github/amatheo/timelinefx/effect/impl/AlchemyCircleEffect.java:39 | a new effect has the most negative int as its last seed and no buffer |
| Alchemy.AlchemyCircle.Render | src/main/java/com/github/amatheo/timelinefx/effect/impl/AlchemyCircleEffect.java:48-58 | the state moves as `RenderStep` says; the buffer is regenerated exactly when the seed changed, and particles are drawn exactly when there is a buffer and a particle type |

## Left out

- Floating point: NaN, infinities and IEEE rounding are not modelled, since a `real` is exact and always finite. The NaN sentinel of `DoubleKeyframeInterpolator.hermite` is an `Option`. The finiteness checks on segment starts always pass.
- Trigonometry: the rotation constructors, axis-angle normalisation and slerp are uninterpreted functions supplied in a `Trig` value, so no property depending on their values is proved.
- `QuaterniondKeyframeInterpolator` is not part of this model. A quaternion channel takes its interpolator as a parameter.
- Timing curves form a closed set (the four easings and the Bézier curve). A custom `TemporalCurve` implementation is not modelled.
- Reflection in `PropertyBinder` (`buildBindings`, the field walk, the method-handle setters and getters, the binding cache) is replaced by an explicit field schema. `parseDefault` is replaced by a default value in each schema entry.
- Number parsing and `String.valueOf` are the parameters of `Binder.Library`. Whether a particular string parses is therefore not modelled.
- `EvaluatedParams.close` and its thread-local stack are not modelled: the stack is never pushed.
- Casts that would throw `ClassCastException` are modelled as a value of another type being skipped or defaulted. The generic signatures rule those casts out for well-typed callers.
- Bukkit, the scheduler, the renderer and packets are not modelled. `PlaybackContext` becomes the current tick and `tickToSeconds` passed to each call, and the sampled frames are returned instead of being sent. The random source of the sampling context is not modelled, and neither is the tick argument of `Effect.sample`, which the modelled effects never read.
- Player audiences are identifiers. `Clips.EffectClipBuilder.Players` records whether the given list can grow in place; the identity of the Java list, and the aliasing that follows from `addPlayer` appending to a caller's `ArrayList`, are not modelled.
- Playback configurators are the lists of setter calls they make. Likewise keyframe configurers are lists of builder edits, and `rootBindings(Consumer)` and `layer(Consumer)` take the built bindings and layer settings as values.
- The children of `Sequence` and `Parallel` are opaque playables. Their calls are recorded as events, and their `isDone` answers are inputs to each call.
- Clips.EffectClipBuilder.Build: requires that no two layer settings share an effect object and that each effect's fields match its schema. When a layer is shared the Java code still runs, with two layers rendering one effect; that case is not modelled.
- A null reaching a primitive field (a setter `NullPointerException`) is not modelled. A present null is extracted and written into the field, whatever its type; Java's setter would throw for a primitive field.
- The alchemy circle's generator (`generate`, `iterateAngles`, polygon points and polygon drawing) is not modelled, nor its density sampling from the context's random source. The buffer is known by the seed it was generated from.
- The alchemy circle's `Integer seed` unboxing, which would throw on a null seed, is not modelled: the seed is an int.
- Particles.PooledParticleBuffer.AddWithVelocity: the Java vertex keeps the caller's velocity vector by reference, so a later change the caller makes to that vector shows in the buffer; the model stores the velocity as a value and does not capture that aliasing.
- Alchemy.BinaryDrawContext.DrawLine: coordinates are unbounded integers, so 32-bit overflow of `x1 - x0` or `2 * err` for coordinates near the int range is not modelled.
- Alchemy.BinaryDrawContext.DrawCircle: the same holds for the error term, which cannot overflow at the 128-pixel resolution the effect uses.
- The pixel buffer is a rectangular `array2`. A jagged `byte[][]` whose later rows are shorter than the first, on which `set` would throw, is not modelled.
- Builders that only store their arguments (`TimelineBuilder`, the per-type `*TrackBuilder` classes, `SequenceBuilder`, `ParallelBuilder`) are not modelled; the objects they build are constructed directly. One consequence is that `TransformProviderTrackBuilder.segment`, which returns null so that chaining on it fails, is not modelled.
- `LayerBuilder`'s setters are collapsed into the `Clips.LayerSpec` record of its settings, and its `build` (the `effect` null check and the default empty bindings) is `Clips.BuildLayers` with `Clips.BuildEmptyBindings`. Its `bindings(Consumer)` overload, which runs a configurer on a fresh bindings builder, and the copy `addPlayer` makes of a non-`ArrayList` audience into an `ArrayList` are not modelled.
- `TimelineProperty.hashCode` is not modelled, because a property is a value compared by its id.
- Integers: `ChannelBuilders.Integers` installs the corrected `Interpolators.IntegerInterpolate`, not the wrapping `IntegerInterpolateAsWritten` that `ChannelBuilder.integers()` installs. The two agree whenever the end points are at most 2^31 - 1 apart (`Interpolators.IntegerInterpolateAgrees`); beyond that the model returns the intended value where Java wraps (see Findings).
- Build: `Playback.PlaybackBuilder.Build` gives the built playback the corrected `Playback.TotalCycles`, not the wrapping `TotalCyclesAsWritten` of the Java constructor. They agree whenever `extraLoops + 1` fits in an int (`Playback.TotalCyclesAgree`); for `loopCount(Integer.MAX_VALUE)` the model plays 2^31 cycles where Java plays one (see Findings).
- constructor (`Playback.TimelinePlayback.constructor`): stores the corrected `TotalCycles` for the same reason, so its cycle count is not one a Java `int` holds in the overflow case.
- ResolvePlayback: `Clips.EffectClipBuilder.ResolvePlayback` and `Clips.EffectClipBuilder.Build` state the corrected `TotalCycles` of the configured loop count, through `Playback.PlaybackBuilder.Build`, for the same reason.
- constructor (`Orchestration.WaitTicks.constructor`): sets `start` to -1, the evidently intended "not started" value, where the Java field starts at 0. Before `start` the model's `IsDone` is therefore false where Java's `isDone` throws a `NullPointerException`; the as-constructed state and that failure are `Orchestration.WaitAsConstructed` and `Orchestration.UnstartedWaitFails` (see Findings).

## Consequences of the code worth stating

- `Timeline`'s constructor (`Timeline.java:14-20`) does not check that each property has one track. With two entries for one property, `track` returns the first entry while a snapshot keeps the later entry's sample (`Timelines.DuplicatePropertyExample`).
- `computeDuration` (`Timeline.java:29-38`) starts its running maximum at 0, so a timeline's duration is the largest track end or 0, whichever is larger (`Timelines.MaxEndSpec`).
- `setSeed` (`AlchemyCircleEffect.java:367-370`) does not leave a positive state for every seed other than `Integer.MIN_VALUE`. Seed 2796202 reduces to 2796203, the modulus itself, so the state is 0 and every later draw is its range's lower bound. `Alchemy.SeededSign` states exactly which seeds give a zero state, and `Alchemy.DegenerateSeed` exhibits one.

## Findings

| source | as written | input that shows it | evidently intended | confidence | as-written member | corrected member |
|---|---|---|---|---|---|---|
| src/main/java/io/github/amatheo/timelinefx/animation/interpolator/IntegerKeyframeInterpolator.java:28 | `end - start` is computed in 32-bit int arithmetic before widening, so it wraps for extreme endpoints | from `Integer.MIN_VALUE` to `Integer.MAX_VALUE` at progress 1 the result is `Integer.MIN_VALUE` instead of the end value | the exact difference, so progress 1 always yields the end value | not executed | Interpolators.IntegerInterpolateOverflowExample | Interpolators.IntegerInterpolateEndPoints |
| src/main/java/com/github/amatheo/timelinefx/animation/timeline/TimelinePlayback.java:23 | `Math.max(1, extraLoops + 1)` is computed in int, so `extraLoops + 1` wraps | `loopCount(Integer.MAX_VALUE)` gives 1 cycle instead of 2^31 | one first play plus every additional loop | not executed | Playback.TotalCyclesOverflowExample | Playback.TotalCyclesAgree |
| src/main/java/io/github/amatheo/timelinefx/orchestration/WaitTicks.java:8 | the `long start` field starts at 0, so the `start < 0` guard of `isDone` never holds before `start` | `isDone()` on a fresh `WaitTicks` dereferences the null context | a start of -1 until `start` is called, so an unstarted wait is not done | not executed | Orchestration.UnstartedWaitFails | Orchestration.UnstartedWaitNotDone |
