/** A property channel: keyframes sorted by time, an interpolator, and the
  * extrapolation used before the first and after the last keyframe. */
module Channels {
  import opened Wrappers
  import opened JavaInt
  import opened Curves
  import opened Keyframes
  import opened Interpolators
  import opened Sorting

  /** What a channel does outside its keyframe range. */
  datatype Extrapolation = Hold | Loop | PingPong

  function KeyTime<T>(k: Keyframe<T>): real { k.time }

  datatype Channel<!T> = Channel(
    keyframes: seq<Keyframe<T>>,
    interpolator: Interpolator<T>,
    pre: Extrapolation,
    post: Extrapolation)

  /** What every constructed channel satisfies: at least one keyframe, in time
    * order. */
  ghost predicate Valid<T>(ch: Channel<T>)
  {
    |ch.keyframes| >= 1 && SortedBy(ch.keyframes, KeyTime)
  }

  /** The constructor: at least one keyframe, stably sorted by time; the
    * interpolator and both behaviours must not be null. */
  function MakeChannel<T>(keyframes: seq<Keyframe<T>>, interpolator: Option<Interpolator<T>>,
                          pre: Option<Extrapolation>, post: Option<Extrapolation>): Result<Channel<T>>
  {
    if |keyframes| == 0 then Err(IllegalArgument("A channel requires at least one keyframe"))
    else if interpolator.None? then Err(NullPointer("interpolator"))
    else if pre.None? then Err(NullPointer("preBehavior"))
    else if post.None? then Err(NullPointer("postBehavior"))
    else Ok(Channel(SortBy(keyframes, KeyTime), interpolator.value, pre.value, post.value))
  }

  /** Construction fails exactly on an empty list or a null argument; a
    * constructed channel is valid and holds the given keyframes in time order,
    * those with equal times in the order they were added. */
  lemma MakeChannelSpec<T>(keyframes: seq<Keyframe<T>>, interpolator: Option<Interpolator<T>>,
                           pre: Option<Extrapolation>, post: Option<Extrapolation>)
    ensures var r := MakeChannel(keyframes, interpolator, pre, post);
      && (r.Ok? <==> |keyframes| > 0 && interpolator.Some? && pre.Some? && post.Some?)
      && (r.Err? && |keyframes| == 0 ==> r.failure.IllegalArgument?)
      && (r.Ok? ==>
            && Valid(r.value)
            && multiset(r.value.keyframes) == multiset(keyframes)
            && (forall t :: WithKey(r.value.keyframes, KeyTime, t) == WithKey(keyframes, KeyTime, t))
            && r.value.pre == pre.value && r.value.post == post.value)
  {
    SortByProperties(keyframes, KeyTime);
  }

  function StartTime<T>(ch: Channel<T>): real
    requires |ch.keyframes| >= 1
  {
    ch.keyframes[0].time
  }

  function EndTime<T>(ch: Channel<T>): real
    requires |ch.keyframes| >= 1
  {
    ch.keyframes[|ch.keyframes| - 1].time
  }

  function Duration<T>(ch: Channel<T>): real
    requires |ch.keyframes| >= 1
  {
    EndTime(ch) - StartTime(ch)
  }

  lemma DurationNonNegative<T>(ch: Channel<T>)
    requires Valid(ch)
    ensures Duration(ch) >= 0.0
    ensures forall i :: 0 <= i < |ch.keyframes| ==> StartTime(ch) <= ch.keyframes[i].time <= EndTime(ch)
  {
  }

  // ------------------------------------------------------ extrapolation

  /** `loopTime`: wrap into [first, first + duration). */
  function LoopTime(time: real, first: real, duration: real): real
    requires duration > 0.0
  {
    first + NormalizedRem(time - first, duration)
  }

  /** `pingPongTime`: bounce between first and first + duration. */
  function PingPongTime(time: real, first: real, duration: real): real
    requires duration > 0.0
  {
    var span := duration * 2.0;
    var n := NormalizedRem(time - first, span);
    if n <= duration then first + n
    else first + duration - (n - duration)
  }

  /** `applyBehavior`: a zero-length range collapses to its first time. */
  function ApplyBehavior(time: real, b: Extrapolation, first: real, last: real): real
  {
    var duration := last - first;
    if duration <= 0.0 then first
    else match b
      case Hold => if time < first then first else last
      case Loop => LoopTime(time, first, duration)
      case PingPong => PingPongTime(time, first, duration)
  }

  /** `remapTime`: times inside the keyframe range are kept; the pre- or
    * post-behaviour handles the others. */
  function RemapTime<T>(ch: Channel<T>, t: real): real
    requires |ch.keyframes| >= 1
  {
    var first, last := StartTime(ch), EndTime(ch);
    if t < first then ApplyBehavior(t, ch.pre, first, last)
    else if t > last then ApplyBehavior(t, ch.post, first, last)
    else t
  }

  lemma LoopTimeBounds(time: real, first: real, duration: real) returns (k: int)
    requires duration > 0.0
    ensures first <= LoopTime(time, first, duration) < first + duration
    ensures LoopTime(time, first, duration) == time - k as real * duration
  {
    k := NormalizedRemBounds(time - first, duration);
  }

  /** Looping repeats with period `duration`. */
  lemma LoopTimePeriodic(time: real, first: real, duration: real, k: int)
    requires duration > 0.0
    ensures LoopTime(time + k as real * duration, first, duration) == LoopTime(time, first, duration)
  {
    NormalizedRemPeriodic(time - first, duration, k);
    assert time + k as real * duration - first == (time - first) + k as real * duration;
  }

  lemma PingPongTimeBounds(time: real, first: real, duration: real)
    requires duration > 0.0
    ensures first <= PingPongTime(time, first, duration) <= first + duration
  {
    var j := NormalizedRemBounds(time - first, duration * 2.0);
  }

  /** Ping-pong is mirror-symmetric about the end of the range. */
  lemma PingPongTimeMirror(first: real, duration: real, x: real)
    requires duration > 0.0 && 0.0 <= x <= duration
    ensures PingPongTime(first + duration + x, first, duration) == first + duration - x
  {
    var span := duration * 2.0;
    if x < duration {
      NormalizedRemUnique(duration + x, span, duration + x, 0);
      assert first + duration + x - first == duration + x;
    } else {
      NormalizedRemUnique(duration + x, span, 0.0, 1);
      assert first + duration + x - first == duration + x;
    }
  }

  /** Every remapped time lies in the keyframe range, and times already in it
    * are kept. */
  lemma RemapTimeInRange<T>(ch: Channel<T>, t: real)
    requires Valid(ch)
    ensures StartTime(ch) <= RemapTime(ch, t) <= EndTime(ch)
    ensures StartTime(ch) <= t <= EndTime(ch) ==> RemapTime(ch, t) == t
  {
    var first, last := StartTime(ch), EndTime(ch);
    if (t < first || t > last) && last - first > 0.0 {
      var k := LoopTimeBounds(t, first, last - first);
      PingPongTimeBounds(t, first, last - first);
    }
  }

  // ------------------------------------------------------------ sampling

  /** The value on segment i (from keyframe i to keyframe i + 1) at `time`:
    * the start keyframe's curve eases the raw progress, then the interpolator
    * blends; a zero-length segment yields its end value. */
  function SegmentValue<T>(ch: Channel<T>, i: nat, time: real): T
    requires i + 1 < |ch.keyframes|
  {
    var cur, next := ch.keyframes[i], ch.keyframes[i + 1];
    var d := next.time - cur.time;
    if d <= 0.0 then next.value
    else ch.interpolator(cur, next, CurveMap(cur.curve, (time - cur.time) / d), d)
  }

  /** The scan of `get` from segment i on: the first segment whose end is not
    * before `time`, or the last keyframe's value. */
  function Scan<T>(ch: Channel<T>, time: real, i: nat): T
    requires |ch.keyframes| >= 1
    decreases |ch.keyframes| - i
  {
    if i + 1 >= |ch.keyframes| then ch.keyframes[|ch.keyframes| - 1].value
    else if time <= ch.keyframes[i + 1].time then SegmentValue(ch, i, time)
    else Scan(ch, time, i + 1)
  }

  /** `PropertyChannel.get` (the tick argument is unused by the source). */
  function Sample<T>(ch: Channel<T>, t: real): T
    requires |ch.keyframes| >= 1
  {
    if |ch.keyframes| == 1 then ch.keyframes[0].value
    else Scan(ch, RemapTime(ch, t), 0)
  }

  /** `get` as the source runs it: an index loop with early returns. */
  method Get<T>(ch: Channel<T>, t: real) returns (v: T)
    requires |ch.keyframes| >= 1
    ensures v == Sample(ch, t)
  {
    var kfs := ch.keyframes;
    if |kfs| == 1 {
      return kfs[0].value;
    }
    var time := RemapTime(ch, t);
    var i := 0;
    while i < |kfs| - 1
      invariant 0 <= i <= |kfs| - 1
      invariant Scan(ch, time, i) == Scan(ch, time, 0)
    {
      var current, next := kfs[i], kfs[i + 1];
      if time <= next.time {
        var segmentDuration := next.time - current.time;
        if segmentDuration <= 0.0 {
          return next.value;
        }
        var rawProgress := (time - current.time) / segmentDuration;
        var easedProgress := CurveMap(current.curve, rawProgress);
        return ch.interpolator(current, next, easedProgress, segmentDuration);
      }
      i := i + 1;
    }
    return kfs[|kfs| - 1].value;
  }

  /** A channel with one keyframe is constant. */
  lemma SingleKeyframeConstant<T>(ch: Channel<T>, t: real)
    requires |ch.keyframes| == 1
    ensures Sample(ch, t) == ch.keyframes[0].value
  {
  }

  lemma {:induction false} ScanFinds<T>(ch: Channel<T>, time: real, i: nat) returns (k: nat)
    requires Valid(ch) && i + 1 < |ch.keyframes|
    requires time <= EndTime(ch)
    ensures i <= k && k + 1 < |ch.keyframes|
    ensures time <= ch.keyframes[k + 1].time
    ensures forall j :: i < j <= k ==> ch.keyframes[j].time < time
    ensures Scan(ch, time, i) == SegmentValue(ch, k, time)
    decreases |ch.keyframes| - i
  {
    if time <= ch.keyframes[i + 1].time {
      k := i;
    } else {
      k := ScanFinds(ch, time, i + 1);
    }
  }

  lemma ProgressInUnit(num: real, d: real)
    requires d > 0.0 && 0.0 <= num <= d
    ensures 0.0 <= num / d <= 1.0
  {
    var q := num / d;
    assert q * d == num;
    if q > 1.0 {
      MulStrict(1.0, q, d);
    }
    if q < 0.0 {
      MulStrict(q, 0.0, d);
    }
  }

  /** Two times that remap alike sample alike. */
  lemma SameRemapSameSample<T>(ch: Channel<T>, t1: real, t2: real)
    requires |ch.keyframes| >= 1 && RemapTime(ch, t1) == RemapTime(ch, t2)
    ensures Sample(ch, t1) == Sample(ch, t2)
  {
  }

  /** For a time in range, `get` uses the first segment whose end is not
    * before that time; the raw progress on it lies in [0, 1]. */
  lemma SampleSegment<T>(ch: Channel<T>, t: real) returns (k: nat)
    requires Valid(ch) && |ch.keyframes| >= 2
    ensures k + 1 < |ch.keyframes|
    ensures var time := RemapTime(ch, t);
      && ch.keyframes[k].time <= time <= ch.keyframes[k + 1].time
      && (forall j :: 0 < j <= k ==> ch.keyframes[j].time < time)
      && Sample(ch, t) == SegmentValue(ch, k, time)
      && (ch.keyframes[k + 1].time - ch.keyframes[k].time > 0.0 ==>
            0.0 <= (time - ch.keyframes[k].time) / (ch.keyframes[k + 1].time - ch.keyframes[k].time) <= 1.0)
  {
    RemapTimeInRange(ch, t);
    var time := RemapTime(ch, t);
    assert Sample(ch, t) == Scan(ch, time, 0);
    k := ScanFinds(ch, time, 0);
    var lo, hi := ch.keyframes[k].time, ch.keyframes[k + 1].time;
    if k > 0 {
      assert lo < time;
    } else {
      assert lo == StartTime(ch);
    }
    if hi - lo > 0.0 {
      ProgressInUnit(time - lo, hi - lo);
    }
  }

  /** HOLD before the first keyframe gives the value at the first keyframe's
    * time; HOLD after the last gives the value at the last keyframe's time. */
  lemma HoldExtrapolation<T>(ch: Channel<T>, t: real)
    requires Valid(ch)
    ensures t < StartTime(ch) && ch.pre == Hold ==> Sample(ch, t) == Sample(ch, StartTime(ch))
    ensures t > EndTime(ch) && ch.post == Hold ==> Sample(ch, t) == Sample(ch, EndTime(ch))
  {
    DurationNonNegative(ch);
  }

  /** After the last keyframe, LOOP remaps by `loopTime`. */
  lemma LoopRemap<T>(ch: Channel<T>, t: real)
    requires Valid(ch) && ch.post == Loop && Duration(ch) > 0.0 && t > EndTime(ch)
    ensures RemapTime(ch, t) == LoopTime(t, StartTime(ch), Duration(ch))
  {
  }

  /** A time k whole ranges after first + x (x in [0, duration)) loops back
    * to first + x. */
  lemma LoopRemapPeriodic<T>(ch: Channel<T>, k: int, x: real)
    requires Valid(ch) && ch.post == Loop && Duration(ch) > 0.0
    requires 0.0 <= x < Duration(ch)
    requires StartTime(ch) + k as real * Duration(ch) + x > EndTime(ch)
    ensures RemapTime(ch, StartTime(ch) + k as real * Duration(ch) + x) == StartTime(ch) + x
  {
    var first, d := StartTime(ch), Duration(ch);
    var t := first + k as real * d + x;
    LoopRemap(ch, t);
    LoopTimeShift(first, d, k, x);
    assert RemapTime(ch, t) == first + x;
    assert t == StartTime(ch) + k as real * Duration(ch) + x;
  }

  /** `loopTime` of a time k whole ranges after first + x is first + x. */
  lemma LoopTimeShift(first: real, d: real, k: int, x: real)
    requires d > 0.0 && 0.0 <= x < d
    ensures LoopTime(first + k as real * d + x, first, d) == first + x
  {
    LoopTimePeriodic(first + x, first, d, k);
    assert first + k as real * d + x == (first + x) + k as real * d;
    NormalizedRemUnique(x, d, x, 0);
    assert first + x - first == x;
  }

  /** LOOP after the last keyframe repeats the range: a time k whole ranges
    * after first + x (x in [0, duration)) samples like first + x. */
  lemma LoopExtrapolation<T>(ch: Channel<T>, k: int, x: real)
    requires Valid(ch) && ch.post == Loop && Duration(ch) > 0.0
    requires 0.0 <= x < Duration(ch)
    requires StartTime(ch) + k as real * Duration(ch) + x > EndTime(ch)
    ensures Sample(ch, StartTime(ch) + k as real * Duration(ch) + x) == Sample(ch, StartTime(ch) + x)
  {
    var t := StartTime(ch) + k as real * Duration(ch) + x;
    LoopRemapPeriodic(ch, k, x);
    RemapTimeInRange(ch, StartTime(ch) + x);
    SameRemapSameSample(ch, t, StartTime(ch) + x);
  }

  /** PING_PONG after the last keyframe mirrors the range about its end. */
  lemma PingPongExtrapolation<T>(ch: Channel<T>, x: real)
    requires Valid(ch) && ch.post == PingPong
    requires 0.0 < x <= Duration(ch)
    ensures Sample(ch, EndTime(ch) + x) == Sample(ch, EndTime(ch) - x)
  {
    var first, d := StartTime(ch), Duration(ch);
    PingPongTimeMirror(first, d, x);
    assert first + d + x == EndTime(ch) + x;
    assert RemapTime(ch, EndTime(ch) + x) == EndTime(ch) - x;
    assert RemapTime(ch, EndTime(ch) - x) == EndTime(ch) - x;
  }

  // ------------------------------------------------------------- builder

  /** `PropertyChannel.Builder`: keyframes are collected in order; behaviours
    * default to HOLD; the interpolator is mandatory. */
  class Builder<T> {
    var keyframes: seq<Keyframe<T>>
    var interpolator: Option<Interpolator<T>>
    var pre: Option<Extrapolation>
    var post: Option<Extrapolation>

    constructor ()
      ensures keyframes == [] && interpolator == None
      ensures pre == Some(Hold) && post == Some(Hold)
    {
      keyframes := [];
      interpolator := None;
      pre := Some(Hold);
      post := Some(Hold);
    }

    method SetInterpolator(i: Option<Interpolator<T>>)
      modifies this
      ensures interpolator == i
      ensures keyframes == old(keyframes) && pre == old(pre) && post == old(post)
    {
      interpolator := i;
    }

    method SetPreBehavior(b: Option<Extrapolation>)
      modifies this
      ensures pre == b
      ensures keyframes == old(keyframes) && interpolator == old(interpolator) && post == old(post)
    {
      pre := b;
    }

    method SetPostBehavior(b: Option<Extrapolation>)
      modifies this
      ensures post == b
      ensures keyframes == old(keyframes) && interpolator == old(interpolator) && pre == old(pre)
    {
      post := b;
    }

    method Add(k: Keyframe<T>)
      modifies this
      ensures keyframes == old(keyframes) + [k]
      ensures interpolator == old(interpolator) && pre == old(pre) && post == old(post)
    {
      keyframes := keyframes + [k];
    }

    /** `build()`: no interpolator is an illegal state; otherwise the
      * constructor decides. */
    method Build() returns (r: Result<Channel<T>>)
      ensures interpolator.None? ==> r == Err(IllegalState("Interpolator must be provided"))
      ensures interpolator.Some? ==> r == MakeChannel(keyframes, interpolator, pre, post)
    {
      if interpolator.None? {
        return Err(IllegalState("Interpolator must be provided"));
      }
      r := MakeChannel(keyframes, interpolator, pre, post);
    }
  }

  // ------------------------------------------------------------ examples

  /** Linear doubles from 0 to 10 over one second are 5 at half time. */
  lemma LinearDoubleExample()
    ensures var r := MakeChannel([KeyframeOf(0.0, 0.0), KeyframeOf(1.0, 10.0)],
                                 Some(DoubleInterpolate), Some(Hold), Some(Hold));
      r.Ok? && Sample(r.value, 0.5) == 5.0
  {
    var kfs := [KeyframeOf(0.0, 0.0), KeyframeOf(1.0, 10.0)];
    SortBySorted(kfs, KeyTime);
  }

  /** Hermite doubles from 0 (out-tangent 2) to 1 (in-tangent 0) are 0.75 at
    * half time. */
  lemma HermiteDoubleExample()
    ensures var r := MakeChannel([Keyframe(0.0, 0.0, None, Some(2.0), DefaultCurve),
                                  Keyframe(1.0, 1.0, Some(0.0), None, DefaultCurve)],
                                 Some(DoubleInterpolate), Some(Hold), Some(Hold));
      r.Ok? && Sample(r.value, 0.5) == 0.75
  {
    var kfs := [Keyframe(0.0, 0.0, None, Some(2.0), DefaultCurve), Keyframe(1.0, 1.0, Some(0.0), None, DefaultCurve)];
    SortBySorted(kfs, KeyTime);
    DoubleHermiteExample();
  }
}
