/** `ChannelBuilder`: a fluent front end over the channel builder whose
  * factories pick the interpolator for each value type. */
module ChannelBuilders {
  import opened Wrappers
  import opened Curves
  import opened Geometry
  import opened Keyframes
  import opened Anchors
  import opened Interpolators
  import opened Channels

  // ------------------------------------------- configuring one keyframe

  /** One call a keyframe configurer makes on a `Keyframe.Builder`. */
  datatype Edit<T> =
    | SetValueTo(value: Option<T>)
    | SetInTangentTo(inTangent: Option<T>)
    | SetOutTangentTo(outTangent: Option<T>)
    | SetCurveTo(curve: Option<Curve>)
    | SetEasingTo(easing: Option<Easing>)
    | SetBezierTo(p1x: real, p1y: real, p2x: real, p2y: real)

  /** The state of a `Keyframe.Builder` as a value. */
  datatype Draft<T> = Draft(value: Option<T>, inTangent: Option<T>, outTangent: Option<T>, curve: Option<Curve>)

  function StartDraft<T>(): Draft<T>
  {
    Draft(None, None, None, Some(DefaultCurve))
  }

  /** One builder call; only a null easing fails. */
  function ApplyEdit<T>(d: Draft<T>, e: Edit<T>): Result<Draft<T>>
  {
    match e
      case SetValueTo(v) => Ok(d.(value := v))
      case SetInTangentTo(v) => Ok(d.(inTangent := v))
      case SetOutTangentTo(v) => Ok(d.(outTangent := v))
      case SetCurveTo(c) => Ok(d.(curve := c))
      case SetEasingTo(ez) =>
        if ez.None? then Err(NullPointer("easing")) else Ok(d.(curve := Some(EasingCurve(ez.value))))
      case SetBezierTo(p1x, p1y, p2x, p2y) => Ok(d.(curve := Some(BezierCurve(MakeBezier(p1x, p1y, p2x, p2y)))))
  }

  /** The calls in order; the first failure ends the configurer. */
  function ApplyEdits<T>(d: Draft<T>, es: seq<Edit<T>>): Result<Draft<T>>
  {
    if |es| == 0 then Ok(d)
    else match ApplyEdits(d, es[..|es| - 1])
      case Err(f) => Err(f)
      case Ok(d') => ApplyEdit(d', es[|es| - 1])
  }

  /** `Keyframe.Builder.build()` on a draft. */
  function BuildDraft<T>(time: real, d: Draft<T>): Result<Keyframe<T>>
  {
    if d.value.None? then Err(NullPointer("value"))
    else if d.curve.None? then Err(NullPointer("curve"))
    else Ok(Keyframe(time, d.value.value, d.inTangent, d.outTangent, d.curve.value))
  }

  /** The keyframe that `keyframe(time, configurer)` adds, or its failure. */
  function Configure<T>(time: real, es: seq<Edit<T>>): Result<Keyframe<T>>
  {
    match ApplyEdits(StartDraft(), es)
      case Err(f) => Err(f)
      case Ok(d) => BuildDraft(time, d)
  }

  /** A configurer that only sets the value gives `Keyframe.of(time, value)`. */
  lemma ConfigureValueOnly<T>(time: real, v: T)
    ensures Configure(time, [SetValueTo(Some(v))]) == Ok(KeyframeOf(time, v))
  {
    var es := [SetValueTo(Some(v))];
    assert es[..0] == [];
    assert ApplyEdits(StartDraft(), es) == ApplyEdit(StartDraft<T>(), es[0]);
  }

  /** A configurer that never sets a value fails with a null value. */
  lemma {:induction false} ConfigureNeedsValue<T>(time: real, es: seq<Edit<T>>)
    requires forall i :: 0 <= i < |es| ==> !es[i].SetValueTo?
    ensures Configure(time, es).Err?
  {
    NoValueStaysNone(es);
  }

  lemma {:induction false} NoValueStaysNone<T>(es: seq<Edit<T>>)
    requires forall i :: 0 <= i < |es| ==> !es[i].SetValueTo?
    ensures ApplyEdits(StartDraft(), es).Ok? ==> ApplyEdits(StartDraft(), es).value.value.None?
  {
    if |es| > 0 {
      NoValueStaysNone(es[..|es| - 1]);
    }
  }

  /** A built keyframe sits at the configured time, and the last value set
    * wins. */
  lemma ConfigureLastValueWins<T>(time: real, es: seq<Edit<T>>, v: T)
    ensures var r := Configure(time, es + [SetValueTo(Some(v))]);
      r.Ok? <==> ApplyEdits(StartDraft(), es).Ok? && ApplyEdits(StartDraft(), es).value.curve.Some?
    ensures var r := Configure(time, es + [SetValueTo(Some(v))]);
      r.Ok? ==> r.value.time == time && r.value.value == v
  {
    var es' := es + [SetValueTo(Some(v))];
    assert es'[..|es'| - 1] == es;
  }

  // ------------------------------------------------------------- builder

  class ChannelBuilder<T> {
    const delegate: Builder<T>

    /** The private constructor: the interpolator is set on a fresh channel
      * builder. */
    constructor (interpolator: Interpolator<T>)
      ensures fresh(delegate)
      ensures delegate.interpolator == Some(interpolator)
      ensures delegate.keyframes == [] && delegate.pre == Some(Hold) && delegate.post == Some(Hold)
    {
      var d := new Builder<T>();
      d.SetInterpolator(Some(interpolator));
      delegate := d;
    }

    method PreBehavior(b: Option<Extrapolation>)
      modifies delegate
      ensures delegate.pre == b
      ensures delegate.keyframes == old(delegate.keyframes) && delegate.interpolator == old(delegate.interpolator)
      ensures delegate.post == old(delegate.post)
    {
      delegate.SetPreBehavior(b);
    }

    method PostBehavior(b: Option<Extrapolation>)
      modifies delegate
      ensures delegate.post == b
      ensures delegate.keyframes == old(delegate.keyframes) && delegate.interpolator == old(delegate.interpolator)
      ensures delegate.pre == old(delegate.pre)
    {
      delegate.SetPostBehavior(b);
    }

    method Add(k: Keyframe<T>)
      modifies delegate
      ensures delegate.keyframes == old(delegate.keyframes) + [k]
      ensures delegate.interpolator == old(delegate.interpolator)
      ensures delegate.pre == old(delegate.pre) && delegate.post == old(delegate.post)
    {
      delegate.Add(k);
    }

    /** `addAll`: the keyframes are appended in iteration order. */
    method AddAll(ks: seq<Keyframe<T>>)
      modifies delegate
      ensures delegate.keyframes == old(delegate.keyframes) + ks
      ensures delegate.interpolator == old(delegate.interpolator)
      ensures delegate.pre == old(delegate.pre) && delegate.post == old(delegate.post)
    {
      var i := 0;
      while i < |ks|
        invariant 0 <= i <= |ks|
        invariant delegate.keyframes == old(delegate.keyframes) + ks[..i]
        invariant delegate.interpolator == old(delegate.interpolator)
        invariant delegate.pre == old(delegate.pre) && delegate.post == old(delegate.post)
      {
        delegate.Add(ks[i]);
        assert ks[..i + 1] == ks[..i] + [ks[i]];
        i := i + 1;
      }
      assert ks[..i] == ks;
    }

    /** `add(time, value)`. */
    method AddAt(time: real, v: T)
      modifies delegate
      ensures delegate.keyframes == old(delegate.keyframes) + [KeyframeOf(time, v)]
      ensures delegate.interpolator == old(delegate.interpolator)
      ensures delegate.pre == old(delegate.pre) && delegate.post == old(delegate.post)
    {
      var k := Keyframes.Of(time, v);
      Add(k);
    }

    /** `keyframe(time, configurer)`: the configurer's calls run on a fresh
      * `Keyframe.Builder`; a failure in them or in `build` propagates and
      * nothing is added. */
    method AddConfigured(time: real, es: seq<Edit<T>>) returns (failure: Option<Failure>)
      modifies delegate
      ensures Configure(time, es).Ok? ==>
        failure == None && delegate.keyframes == old(delegate.keyframes) + [Configure(time, es).value]
      ensures Configure(time, es).Err? ==>
        failure == Some(Configure(time, es).failure) && delegate.keyframes == old(delegate.keyframes)
      ensures delegate.interpolator == old(delegate.interpolator)
      ensures delegate.pre == old(delegate.pre) && delegate.post == old(delegate.post)
    {
      var kb := new KeyframeBuilder<T>.At(time);
      var i := 0;
      while i < |es|
        invariant 0 <= i <= |es|
        invariant kb.time == time
        invariant ApplyEdits(StartDraft(), es[..i]) == Ok(Draft(kb.value, kb.inTangent, kb.outTangent, kb.curve))
        invariant delegate.keyframes == old(delegate.keyframes) && delegate.interpolator == old(delegate.interpolator)
        invariant delegate.pre == old(delegate.pre) && delegate.post == old(delegate.post)
      {
        assert es[..i + 1][..i] == es[..i];
        match es[i] {
        case SetValueTo(v) => kb.SetValue(v);
        case SetInTangentTo(v) => kb.SetInTangent(v);
        case SetOutTangentTo(v) => kb.SetOutTangent(v);
        case SetCurveTo(c) => kb.SetCurve(c);
        case SetEasingTo(ez) =>
          var f := kb.SetEasing(ez);
          if f.Some? {
            PrefixFailurePersists(StartDraft(), es, i + 1);
            return f;
          }
        case SetBezierTo(p1x, p1y, p2x, p2y) => kb.SetBezier(p1x, p1y, p2x, p2y);
        }
        i := i + 1;
      }
      assert es[..i] == es;
      var r := kb.Build();
      if r.Err? {
        return Some(r.failure);
      }
      Add(r.value);
      failure := None;
    }

    /** `build()`. */
    method Build() returns (r: Result<Channel<T>>)
      ensures delegate.interpolator.None? ==> r.Err? && r.failure.IllegalState?
      ensures delegate.interpolator.Some? ==>
        r == MakeChannel(delegate.keyframes, delegate.interpolator, delegate.pre, delegate.post)
    {
      r := delegate.Build();
    }
  }

  /** Once the configurer has failed, later calls do not matter. */
  lemma {:induction false} PrefixFailurePersists<T>(d: Draft<T>, es: seq<Edit<T>>, n: nat)
    requires n <= |es| && ApplyEdits(d, es[..n]).Err?
    ensures ApplyEdits(d, es) == ApplyEdits(d, es[..n])
    decreases |es| - n
  {
    if n < |es| {
      assert es[..n + 1][..n] == es[..n];
      PrefixFailurePersists(d, es, n + 1);
    } else {
      assert es[..n] == es;
    }
  }

  // ----------------------------------------------------------- factories

  /** `booleans()`: step interpolation. */
  method Booleans() returns (b: ChannelBuilder<bool>)
    ensures fresh(b) && fresh(b.delegate)
    ensures b.delegate.interpolator == Some(StepInterpolate)
    ensures b.delegate.keyframes == [] && b.delegate.pre == Some(Hold) && b.delegate.post == Some(Hold)
  {
    b := new ChannelBuilder<bool>(StepInterpolate);
  }

  /** `transformProvider()`: anchor blending. */
  method TransformProviders() returns (b: ChannelBuilder<Provider>)
    ensures fresh(b) && fresh(b.delegate)
    ensures b.delegate.interpolator == Some(ProviderInterpolate)
    ensures b.delegate.keyframes == [] && b.delegate.pre == Some(Hold) && b.delegate.post == Some(Hold)
  {
    b := new ChannelBuilder<Provider>(ProviderInterpolate);
  }

  /** `objects()`: step interpolation. */
  method Objects<T>() returns (b: ChannelBuilder<T>)
    ensures fresh(b) && fresh(b.delegate)
    ensures b.delegate.interpolator == Some(StepInterpolate)
    ensures b.delegate.keyframes == [] && b.delegate.pre == Some(Hold) && b.delegate.post == Some(Hold)
  {
    b := new ChannelBuilder<T>(StepInterpolate);
  }

  /** `doubles()`: Hermite or linear numeric interpolation. */
  method Doubles() returns (b: ChannelBuilder<real>)
    ensures fresh(b) && fresh(b.delegate)
    ensures b.delegate.interpolator == Some(DoubleInterpolate)
    ensures b.delegate.keyframes == [] && b.delegate.pre == Some(Hold) && b.delegate.post == Some(Hold)
  {
    b := new ChannelBuilder<real>(DoubleInterpolate);
  }

  /** `integers()`: numeric interpolation rounded and clamped to int, with
    * the end points' difference taken exactly (`IntegerInterpolate`) rather
    * than wrapped in 32 bits as Java does. */
  method Integers() returns (b: ChannelBuilder<int>)
    ensures fresh(b) && fresh(b.delegate)
    ensures b.delegate.interpolator == Some(IntegerInterpolate)
    ensures b.delegate.keyframes == [] && b.delegate.pre == Some(Hold) && b.delegate.post == Some(Hold)
  {
    b := new ChannelBuilder<int>(IntegerInterpolate);
  }

  /** `vector3d()`: component-wise numeric interpolation. */
  method Vectors() returns (b: ChannelBuilder<Vec3>)
    ensures fresh(b) && fresh(b.delegate)
    ensures b.delegate.interpolator == Some(VectorInterpolate)
    ensures b.delegate.keyframes == [] && b.delegate.pre == Some(Hold) && b.delegate.post == Some(Hold)
  {
    b := new ChannelBuilder<Vec3>(VectorInterpolate);
  }

  /** `quaterniond()`: the quaternion interpolator is passed in. */
  method Quaternions(slerp: Interpolator<Quat>) returns (b: ChannelBuilder<Quat>)
    ensures fresh(b) && fresh(b.delegate)
    ensures b.delegate.interpolator == Some(slerp)
    ensures b.delegate.keyframes == [] && b.delegate.pre == Some(Hold) && b.delegate.post == Some(Hold)
  {
    b := new ChannelBuilder<Quat>(slerp);
  }

  /** `of(interpolator)`: a null interpolator is refused. */
  method Of<T>(interpolator: Option<Interpolator<T>>) returns (r: Result<ChannelBuilder<T>>)
    ensures interpolator.None? <==> r.Err?
    ensures r.Err? ==> r.failure.NullPointer?
    ensures r.Ok? ==> fresh(r.value) && fresh(r.value.delegate)
    ensures r.Ok? ==> r.value.delegate.interpolator == interpolator && r.value.delegate.keyframes == []
    ensures r.Ok? ==> r.value.delegate.pre == Some(Hold) && r.value.delegate.post == Some(Hold)
  {
    if interpolator.None? {
      return Err(NullPointer("interpolator"));
    }
    var b := new ChannelBuilder<T>(interpolator.value);
    r := Ok(b);
  }
}
