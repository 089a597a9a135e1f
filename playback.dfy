/** Timeline playback: start delay, speed and loop cycles mapped onto timeline
  * time, with the finished flag and the last snapshot kept between samples. */
module Playback {
  import opened Wrappers
  import opened JavaInt
  import opened Values
  import opened Timelines

  function MaxReal(a: real, b: real): real { if a >= b then a else b }

  // ----------------------------------------------------------- cycles

  /** `totalCycles` as the constructor computes it: `extraLoops + 1` in
    * 32-bit arithmetic, at least one. */
  function TotalCyclesAsWritten(infinite: bool, extraLoops: int): int
    requires IsInt32(extraLoops)
  {
    if infinite then -1
    else
      var c := Wrap32(extraLoops + 1);
      if 1 >= c then 1 else c
  }

  /** `totalCycles` without the wrap-around: the first playthrough plus each
    * additional loop. */
  function TotalCycles(infinite: bool, extraLoops: int): (r: int)
    ensures infinite ==> r == -1
    ensures !infinite && extraLoops >= 0 ==> r == extraLoops + 1
    ensures !infinite ==> r >= 1
  {
    if infinite then -1
    else if 1 >= extraLoops + 1 then 1 else extraLoops + 1
  }

  /** The two agree for every loop count below `Integer.MAX_VALUE`. */
  lemma TotalCyclesAgree(infinite: bool, extraLoops: int)
    requires IsInt32(extraLoops) && extraLoops < IntMax
    ensures TotalCyclesAsWritten(infinite, extraLoops) == TotalCycles(infinite, extraLoops)
  {
  }

  /** `loopCount(Integer.MAX_VALUE)` wraps to a single playthrough. */
  lemma TotalCyclesOverflowExample()
    ensures TotalCyclesAsWritten(false, IntMax) == 1
    ensures TotalCycles(false, IntMax) == IntMax + 1
  {
    assert Wrap32(IntMax + 1) == IntMin;
  }

  // ---------------------------------------------------------- mapTime

  /** The `TimelineSample` record: a timeline time and whether playback has
    * ended. */
  datatype TimeSample = TimeSample(time: real, finished: bool)

  /** `wrap`: the remainder of `value` by `span`, made non-negative. */
  function Wrap(value: real, span: real): real
  {
    if span <= 0.0 then 0.0 else NormalizedRem(value, span)
  }

  /** `wrap` lands in [0, span) and differs from the value by whole spans. */
  lemma WrapBounds(value: real, span: real) returns (k: int)
    requires span > 0.0
    ensures 0.0 <= Wrap(value, span) < span
    ensures Wrap(value, span) == value - k as real * span
  {
    k := NormalizedRemBounds(value, span);
  }

  /** `mapTime`: playback time (after delay and speed) to timeline time. */
  function MapTime(duration: real, infinite: bool, cycles: int, loopDelaySeconds: real, t: real): TimeSample
  {
    if duration <= 0.0 then EmptyMapTime(infinite, cycles, loopDelaySeconds, t)
    else if infinite then InfiniteMapTime(duration, loopDelaySeconds, t)
    else FiniteMapTime(duration, cycles, loopDelaySeconds, t)
  }

  /** A timeline without duration only waits out the loop delays. */
  function EmptyMapTime(infinite: bool, cycles: int, loopDelaySeconds: real, t: real): TimeSample
  {
    if infinite then TimeSample(0.0, false)
    else
      var loopDelay := MaxReal(0.0, loopDelaySeconds);
      var total := loopDelay * (if 0 >= cycles - 1 then 0 else cycles - 1) as real;
      TimeSample(0.0, t >= total)
  }

  /** One cycle of an infinitely looping playback: the timeline and its
    * delay. */
  function CycleSpan(duration: real, loopDelaySeconds: real): real
  {
    duration + MaxReal(0.0, loopDelaySeconds)
  }

  function InfiniteMapTime(duration: real, loopDelaySeconds: real, t: real): TimeSample
  {
    var span := CycleSpan(duration, loopDelaySeconds);
    if span <= 0.0 then TimeSample(0.0, false)
    else
      var within := Wrap(t, span);
      if within >= duration then TimeSample(duration, false) else TimeSample(within, false)
  }

  /** The total of all cycles and the delays between them. */
  function FiniteTotal(duration: real, cycles: int, loopDelay: real): real
  {
    duration * cycles as real + loopDelay * (cycles - 1) as real
  }

  function FiniteMapTime(duration: real, cycles: int, loopDelaySeconds: real, t: real): TimeSample
  {
    var loopDelay := MaxReal(0.0, loopDelaySeconds);
    if t >= FiniteTotal(duration, cycles, loopDelay) then TimeSample(duration, true)
    else
      var span := duration + loopDelay;
      if span <= 0.0 then TimeSample(duration, true)
      else
        var index := DoubleToInt((t / span).Floor as real);
        var within := t - index as real * span;
        if within >= duration then TimeSample(duration, false) else TimeSample(within, false)
  }

  /** Infinite playback never finishes. */
  lemma InfiniteNeverFinishes(duration: real, cycles: int, loopDelay: real, t: real)
    ensures !MapTime(duration, true, cycles, loopDelay, t).finished
  {
  }

  /** Finite playback finishes exactly once the total of all cycles and the
    * delays between them has elapsed. */
  lemma FiniteFinishes(duration: real, cycles: int, loopDelay: real, t: real)
    requires duration >= 0.0 && cycles >= 1
    ensures MapTime(duration, false, cycles, loopDelay, t).finished
      <==> t >= FiniteTotal(duration, cycles, MaxReal(0.0, loopDelay))
  {
    var l := MaxReal(0.0, loopDelay);
    if duration <= 0.0 {
      assert duration * cycles as real == 0.0;
    }
  }

  lemma FloorOfWholeSpans(k: int, x: real, span: real)
    requires span > 0.0 && 0.0 <= x < span
    ensures ((k as real * span + x) / span).Floor == k
  {
    var a := k as real * span + x;
    FloorDivBounds(a, span);
    var q := (a / span).Floor;
    var qd := q as real * span;
    NoWholeSpanBetween(a - qd, x, span, q, k);
  }

  /** The total ends `duration` after the start of the last cycle. */
  lemma FiniteTotalSplit(duration: real, cycles: int, loopDelay: real)
    requires cycles >= 1
    ensures FiniteTotal(duration, cycles, loopDelay) == (cycles - 1) as real * (duration + loopDelay) + duration
  {
    assert duration * cycles as real == duration * (cycles - 1) as real + duration;
  }

  /** The finite branch once the cycle index is known. */
  lemma FiniteAt(duration: real, cycles: int, loopDelay: real, t: real, k: int)
    requires duration > 0.0 && loopDelay >= 0.0
    requires t < FiniteTotal(duration, cycles, loopDelay)
    requires k == (t / (duration + loopDelay)).Floor && IsInt32(k)
    ensures var w := t - k as real * (duration + loopDelay);
      FiniteMapTime(duration, cycles, loopDelay, t) == TimeSample(if w >= duration then duration else w, false)
  {
    assert MaxReal(0.0, loopDelay) == loopDelay;
    assert Trunc(k as real) == k;
  }

  /** Cycle k at offset x lies before the total. */
  lemma CycleBeforeTotal(duration: real, cycles: int, loopDelay: real, k: int, x: real)
    requires duration > 0.0 && loopDelay >= 0.0 && 1 <= cycles
    requires 0 <= k < cycles && 0.0 <= x < duration + loopDelay
    requires k < cycles - 1 || x < duration
    ensures k as real * (duration + loopDelay) + x < FiniteTotal(duration, cycles, loopDelay)
  {
    var span := duration + loopDelay;
    var ks := k as real * span;
    FiniteTotalSplit(duration, cycles, loopDelay);
    if k < cycles - 1 {
      MulMonotone((k + 1) as real, (cycles - 1) as real, span);
      assert (k + 1) as real * span == ks + span;
    }
  }

  /** Within cycle k, the timeline plays the offset into the cycle and holds
    * its end during the loop delay. */
  lemma FiniteCycle(duration: real, cycles: int, loopDelay: real, k: int, x: real)
    requires duration > 0.0 && loopDelay >= 0.0 && 1 <= cycles <= IntMax + 1
    requires 0 <= k < cycles && 0.0 <= x < duration + loopDelay
    requires k < cycles - 1 || x < duration
    ensures var t := k as real * (duration + loopDelay) + x;
      MapTime(duration, false, cycles, loopDelay, t) == TimeSample(if x < duration then x else duration, false)
  {
    var span := duration + loopDelay;
    var t := k as real * span + x;
    CycleBeforeTotal(duration, cycles, loopDelay, k, x);
    FloorOfWholeSpans(k, x, span);
    FiniteAt(duration, cycles, loopDelay, t, k);
    assert t - k as real * span == x;
  }

  lemma WrapPeriodic(value: real, span: real, k: int)
    requires span > 0.0
    ensures Wrap(value + k as real * span, span) == Wrap(value, span)
  {
    NormalizedRemPeriodic(value, span, k);
  }

  /** Infinite playback repeats with the period of one cycle plus its delay. */
  lemma InfinitePeriodic(duration: real, cycles: int, loopDelay: real, t: real, k: int)
    requires duration > 0.0
    ensures MapTime(duration, true, cycles, loopDelay, t + k as real * CycleSpan(duration, loopDelay))
         == MapTime(duration, true, cycles, loopDelay, t)
  {
    WrapPeriodic(t, CycleSpan(duration, loopDelay), k);
  }

  lemma InfiniteInRange(duration: real, loopDelay: real, t: real)
    requires duration > 0.0
    ensures 0.0 <= InfiniteMapTime(duration, loopDelay, t).time <= duration
  {
    var k := WrapBounds(t, CycleSpan(duration, loopDelay));
  }

  /** Before the total, the cycle index lies in [0, cycles) and the offset in
    * [0, span). */
  lemma CycleIndexBounds(duration: real, cycles: int, l: real, t: real)
    requires duration > 0.0 && l >= 0.0 && t >= 0.0 && 1 <= cycles
    requires t < FiniteTotal(duration, cycles, l)
    ensures var q := (t / (duration + l)).Floor;
      0 <= q < cycles && 0.0 <= t - q as real * (duration + l) < duration + l
  {
    var span := duration + l;
    FloorDivBounds(t, span);
    FiniteTotalSplit(duration, cycles, l);
    assert cycles as real * span == (cycles - 1) as real * span + span;
    FloorDivRange(t, span, cycles);
  }

  lemma FiniteInRange(duration: real, cycles: int, loopDelay: real, t: real)
    requires duration > 0.0 && t >= 0.0 && 1 <= cycles <= IntMax + 1
    ensures 0.0 <= FiniteMapTime(duration, cycles, loopDelay, t).time <= duration
  {
    var l := MaxReal(0.0, loopDelay);
    if t < FiniteTotal(duration, cycles, l) {
      CycleIndexBounds(duration, cycles, l, t);
      var q := (t / (duration + l)).Floor;
      FiniteAt(duration, cycles, l, t, q);
    }
  }

  /** For a non-negative time the timeline time lies in [0, duration]. */
  lemma MapTimeInRange(duration: real, infinite: bool, cycles: int, loopDelay: real, t: real)
    requires duration >= 0.0 && t >= 0.0
    requires !infinite ==> 1 <= cycles <= IntMax + 1
    ensures 0.0 <= MapTime(duration, infinite, cycles, loopDelay, t).time <= duration
  {
    if duration > 0.0 {
      if infinite {
        InfiniteInRange(duration, loopDelay, t);
      } else {
        FiniteInRange(duration, cycles, loopDelay, t);
      }
    }
  }

  /** Two cycles of a 2-second timeline without delay. */
  lemma TwoCycleExample()
    ensures MapTime(2.0, false, 2, 0.0, 1.0) == TimeSample(1.0, false)
    ensures MapTime(2.0, false, 2, 0.0, 3.0) == TimeSample(1.0, false)
    ensures MapTime(2.0, false, 2, 0.0, 4.0) == TimeSample(2.0, true)
    ensures MapTime(2.0, false, 2, 0.0, 9.0) == TimeSample(2.0, true)
  {
    FiniteCycle(2.0, 2, 0.0, 0, 1.0);
    FiniteCycle(2.0, 2, 0.0, 1, 1.0);
  }

  // --------------------------------------------------------------- builder

  /** `TimelinePlayback.Builder`. */
  class PlaybackBuilder {
    const timeline: Timeline
    var speed: real
    var startDelay: real
    var extraLoops: int
    var infinite: bool
    var loopDelay: real

    /** What the setters' checks keep. */
    ghost predicate Valid()
      reads this
    {
      speed > 0.0 && startDelay >= 0.0 && 0 <= extraLoops <= IntMax && loopDelay >= 0.0
    }

    constructor (timeline: Timeline)
      ensures this.timeline == timeline && Valid()
      ensures speed == 1.0 && startDelay == 0.0 && extraLoops == 0 && !infinite && loopDelay == 0.0
    {
      this.timeline := timeline;
      speed := 1.0;
      startDelay := 0.0;
      extraLoops := 0;
      infinite := false;
      loopDelay := 0.0;
    }

    /** `speed(s)`: must be positive. */
    method Speed(s: real) returns (failure: Option<Failure>)
      modifies this
      ensures failure.Some? <==> s <= 0.0
      ensures failure.Some? ==> failure.value.IllegalArgument? && speed == old(speed)
      ensures failure.None? ==> speed == s
      ensures startDelay == old(startDelay) && extraLoops == old(extraLoops)
      ensures infinite == old(infinite) && loopDelay == old(loopDelay)
      ensures old(Valid()) ==> Valid()
    {
      if s <= 0.0 {
        return Some(IllegalArgument("speed must be > 0"));
      }
      speed := s;
      failure := None;
    }

    /** `delaySeconds(d)`: must not be negative. */
    method DelaySeconds(d: real) returns (failure: Option<Failure>)
      modifies this
      ensures failure.Some? <==> d < 0.0
      ensures failure.Some? ==> failure.value.IllegalArgument? && startDelay == old(startDelay)
      ensures failure.None? ==> startDelay == d
      ensures speed == old(speed) && extraLoops == old(extraLoops)
      ensures infinite == old(infinite) && loopDelay == old(loopDelay)
      ensures old(Valid()) ==> Valid()
    {
      if d < 0.0 {
        return Some(IllegalArgument("delaySeconds must be >= 0"));
      }
      startDelay := d;
      failure := None;
    }

    /** `loopCount(n)`: n additional loops after the first playthrough; turns
      * infinite looping off. */
    method LoopCount(n: int) returns (failure: Option<Failure>)
      requires IsInt32(n)
      modifies this
      ensures failure.Some? <==> n < 0
      ensures failure.Some? ==> failure.value.IllegalArgument?
      ensures failure.Some? ==> extraLoops == old(extraLoops) && infinite == old(infinite)
      ensures failure.None? ==> extraLoops == n && !infinite
      ensures speed == old(speed) && startDelay == old(startDelay) && loopDelay == old(loopDelay)
      ensures old(Valid()) ==> Valid()
    {
      if n < 0 {
        return Some(IllegalArgument("additionalLoops must be >= 0"));
      }
      extraLoops := n;
      infinite := false;
      failure := None;
    }

    method LoopInfinite()
      modifies this
      ensures infinite
      ensures speed == old(speed) && startDelay == old(startDelay)
      ensures extraLoops == old(extraLoops) && loopDelay == old(loopDelay)
    {
      infinite := true;
    }

    /** `loopDelaySeconds(d)`: must not be negative. */
    method LoopDelaySeconds(d: real) returns (failure: Option<Failure>)
      modifies this
      ensures failure.Some? <==> d < 0.0
      ensures failure.Some? ==> failure.value.IllegalArgument? && loopDelay == old(loopDelay)
      ensures failure.None? ==> loopDelay == d
      ensures speed == old(speed) && startDelay == old(startDelay)
      ensures extraLoops == old(extraLoops) && infinite == old(infinite)
      ensures old(Valid()) ==> Valid()
    {
      if d < 0.0 {
        return Some(IllegalArgument("loopDelaySeconds must be >= 0"));
      }
      loopDelay := d;
      failure := None;
    }

    method Build() returns (p: TimelinePlayback)
      requires Valid()
      ensures fresh(p) && p.Valid()
      ensures p.timeline == timeline && p.speed == speed && p.startDelay == startDelay
      ensures p.infinite == infinite && p.totalCycles == TotalCycles(infinite, extraLoops)
      ensures p.loopDelay == loopDelay && p.duration == MaxReal(0.0, timeline.duration)
      ensures p.startedTick == -1 && !p.finished && p.lastSnapshot == None
    {
      p := new TimelinePlayback(this);
    }
  }

  // -------------------------------------------------------------- playback

  class TimelinePlayback {
    const timeline: Timeline
    const speed: real
    const startDelay: real
    const infinite: bool
    const totalCycles: int
    const loopDelay: real
    const duration: real
    var startedTick: int
    var finished: bool
    var lastSnapshot: Option<Snapshot>

    /** The configuration a builder can produce. */
    ghost predicate Valid()
    {
      && speed > 0.0 && startDelay >= 0.0 && loopDelay >= 0.0 && duration >= 0.0
      && (infinite ==> totalCycles == -1)
      && (!infinite ==> 1 <= totalCycles <= IntMax + 1)
    }

    /** The cycle count is the corrected `TotalCycles`, which does not wrap
      * where the Java constructor's `extraLoops + 1` does. */
    constructor (b: PlaybackBuilder)
      requires b.Valid()
      ensures Valid()
      ensures timeline == b.timeline && speed == b.speed && startDelay == b.startDelay
      ensures infinite == b.infinite && totalCycles == TotalCycles(b.infinite, b.extraLoops)
      ensures loopDelay == b.loopDelay && duration == MaxReal(0.0, b.timeline.duration)
      ensures startedTick == -1 && !finished && lastSnapshot == None
    {
      timeline := b.timeline;
      speed := b.speed;
      startDelay := b.startDelay;
      infinite := b.infinite;
      totalCycles := TotalCycles(b.infinite, b.extraLoops);
      loopDelay := b.loopDelay;
      duration := MaxReal(0.0, b.timeline.duration);
      startedTick := -1;
      finished := false;
      lastSnapshot := None;
    }

    /** `start(tick)`: restart from `tick`, forgetting the last snapshot. */
    method Start(tick: int)
      requires IsInt64(tick)
      modifies this
      ensures startedTick == tick && !finished && lastSnapshot == None
    {
      startedTick := tick;
      finished := false;
      lastSnapshot := None;
    }

    /** The playback time at `nowTick`, or None before the start or during the
      * start delay. The tick difference is a 64-bit subtraction. */
    function PlayTime(nowTick: int, tickToSeconds: real): Option<real>
      reads this
    {
      if startedTick < 0 then None
      else
        var elapsed := Wrap64(nowTick - startedTick) as real * tickToSeconds;
        var effective := elapsed - startDelay;
        if effective < 0.0 then None else Some(effective * speed)
    }

    /** The last snapshot and the finished flag once `nowTick` is sampled. */
    function Sampled(nowTick: int, tickToSeconds: real): (Option<Snapshot>, bool)
      requires EntriesWellFormed(timeline.entries)
      reads this
    {
      var t := PlayTime(nowTick, tickToSeconds);
      if t.None? then (lastSnapshot, finished)
      else
        var m := MapTime(duration, infinite, totalCycles, loopDelay, t.value);
        (Some(Timelines.Sample(timeline, m.time)), finished || m.finished)
    }

    /** `sample(nowTick, tickToSeconds)`: before the start and during the delay
      * the last snapshot is returned unchanged; otherwise the timeline is
      * sampled at the mapped time, which becomes the last snapshot, and an
      * ended playback is flagged finished. */
    method Sample(nowTick: int, tickToSeconds: real) returns (s: Option<Snapshot>)
      requires EntriesWellFormed(timeline.entries)
      modifies this
      ensures startedTick == old(startedTick)
      ensures old(PlayTime(nowTick, tickToSeconds)).None? ==>
        s == old(lastSnapshot) && lastSnapshot == old(lastSnapshot) && finished == old(finished)
      ensures old(PlayTime(nowTick, tickToSeconds)).Some? ==>
        var m := MapTime(duration, infinite, totalCycles, loopDelay, old(PlayTime(nowTick, tickToSeconds)).value);
        && s == Some(Timelines.Sample(timeline, m.time))
        && lastSnapshot == s
        && finished == (old(finished) || m.finished)
      ensures (lastSnapshot, finished) == old(Sampled(nowTick, tickToSeconds)) && s == lastSnapshot
    {
      var playTime := PlayTime(nowTick, tickToSeconds);
      if playTime.None? {
        return lastSnapshot;
      }
      var m := MapTime(duration, infinite, totalCycles, loopDelay, playTime.value);
      if m.finished {
        finished := true;
      }
      var snapshot := Timelines.Get(timeline, m.time);
      lastSnapshot := Some(snapshot);
      s := Some(snapshot);
    }
  }

  /** A playing time is never negative, so every sampled timeline time lies in
    * [0, duration]. */
  lemma PlayTimeInRange(p: TimelinePlayback, nowTick: int, tickToSeconds: real)
    requires p.Valid() && p.PlayTime(nowTick, tickToSeconds).Some?
    ensures p.PlayTime(nowTick, tickToSeconds).value >= 0.0
    ensures var m := MapTime(p.duration, p.infinite, p.totalCycles, p.loopDelay, p.PlayTime(nowTick, tickToSeconds).value);
      0.0 <= m.time <= p.duration
  {
    var t := p.PlayTime(nowTick, tickToSeconds).value;
    var elapsed := Wrap64(nowTick - p.startedTick) as real * tickToSeconds;
    var effective := elapsed - p.startDelay;
    MulNonNegativeReal(effective, p.speed);
    MapTimeInRange(p.duration, p.infinite, p.totalCycles, p.loopDelay, t);
  }

  lemma MulNonNegativeReal(a: real, b: real)
    requires a >= 0.0 && b >= 0.0
    ensures a * b >= 0.0
  {
  }
}
