/** A timeline track: property channels placed at explicit start offsets. */
module Tracks {
  import opened Wrappers
  import opened Keyframes
  import opened Interpolators
  import opened Channels
  import opened Sorting

  /** `TimelineTrack.Segment`: a channel placed at `start` on the timeline. */
  datatype Segment<!T> = Segment(start: real, channel: Channel<T>)

  function SegmentStart<T>(s: Segment<T>): real { s.start }

  /** The segment record's constructor: a null channel is refused (start times
    * are reals here, so the finiteness check always passes). */
  function MakeSegment<T>(start: real, channel: Option<Channel<T>>): (r: Result<Segment<T>>)
    ensures r.Ok? <==> channel.Some?
    ensures r.Ok? ==> r.value == Segment(start, channel.value)
    ensures r.Err? ==> r.failure.NullPointer?
  {
    if channel.None? then Err(NullPointer("channel")) else Ok(Segment(start, channel.value))
  }

  /** `endSeconds`: the start plus the channel's duration. */
  function SegmentEnd<T>(s: Segment<T>): real
    requires |s.channel.keyframes| >= 1
  {
    s.start + Duration(s.channel)
  }

  /** `sample`: timeline time is shifted so that the segment's start meets the
    * channel's first keyframe. */
  function SampleSegmentAt<T>(s: Segment<T>, t: real): T
    requires |s.channel.keyframes| >= 1
  {
    Sample(s.channel, StartTime(s.channel) + (t - s.start))
  }

  /** At its own start a segment plays its channel's first keyframe time, and
    * one channel duration later its last. */
  lemma SegmentLocalTime<T>(s: Segment<T>, x: real)
    requires |s.channel.keyframes| >= 1
    ensures SampleSegmentAt(s, s.start + x) == Sample(s.channel, StartTime(s.channel) + x)
    ensures SampleSegmentAt(s, SegmentEnd(s)) == Sample(s.channel, EndTime(s.channel))
  {
    assert StartTime(s.channel) + (s.start + x - s.start) == StartTime(s.channel) + x;
    assert StartTime(s.channel) + (SegmentEnd(s) - s.start) == EndTime(s.channel);
  }

  datatype Track<!T> = Track(segments: seq<Segment<T>>)

  /** Every channel of the track has a keyframe. */
  ghost predicate WellFormed<T>(tr: Track<T>)
  {
    |tr.segments| >= 1 && forall i :: 0 <= i < |tr.segments| ==> |tr.segments[i].channel.keyframes| >= 1
  }

  /** Sorted by start, each channel valid. */
  ghost predicate TrackValid<T>(tr: Track<T>)
  {
    && |tr.segments| >= 1
    && SortedBy(tr.segments, SegmentStart)
    && forall i :: 0 <= i < |tr.segments| ==> Valid(tr.segments[i].channel)
  }

  /** The constructor: at least one segment, stably sorted by start. */
  function MakeTrack<T>(segments: seq<Segment<T>>): Result<Track<T>>
  {
    if |segments| == 0 then Err(IllegalArgument("timeline track requires at least one segment"))
    else Ok(Track(SortBy(segments, SegmentStart)))
  }

  /** A track is built exactly from a non-empty list; it holds the segments in
    * start order (equal starts in insertion order) and is valid when their
    * channels are. */
  lemma MakeTrackSpec<T>(segments: seq<Segment<T>>)
    ensures MakeTrack(segments).Ok? <==> |segments| > 0
    ensures MakeTrack(segments).Err? ==> MakeTrack(segments).failure.IllegalArgument?
    ensures MakeTrack(segments).Ok? ==>
      && multiset(MakeTrack(segments).value.segments) == multiset(segments)
      && SortedBy(MakeTrack(segments).value.segments, SegmentStart)
      && (forall t :: WithKey(MakeTrack(segments).value.segments, SegmentStart, t) == WithKey(segments, SegmentStart, t))
    ensures MakeTrack(segments).Ok? && (forall i :: 0 <= i < |segments| ==> Valid(segments[i].channel))
      ==> TrackValid(MakeTrack(segments).value)
  {
    if |segments| > 0 {
      SortByProperties(segments, SegmentStart);
      var sorted := SortBy(segments, SegmentStart);
      forall i | 0 <= i < |sorted|
        ensures sorted[i] in multiset(segments)
      {
        assert sorted[i] in multiset(sorted);
      }
    }
  }

  function TrackStart<T>(tr: Track<T>): real
    requires |tr.segments| >= 1
  {
    tr.segments[0].start
  }

  /** `endSeconds`: the end of the last segment in start order. */
  function TrackEnd<T>(tr: Track<T>): real
    requires WellFormed(tr)
  {
    SegmentEnd(tr.segments[|tr.segments| - 1])
  }

  function TrackLength<T>(tr: Track<T>): real
    requires WellFormed(tr)
  {
    TrackEnd(tr) - TrackStart(tr)
  }

  // ---------------------------------------------------- segment lookup

  /** The scan of `resolveSegment` from index i with the current candidate. */
  function ResolveFrom<T>(segs: seq<Segment<T>>, t: real, i: nat, candidate: nat): (r: nat)
    requires i <= |segs| && candidate < |segs|
    ensures r < |segs|
    decreases |segs| - i
  {
    if i == |segs| || segs[i].start > t then candidate
    else ResolveFrom(segs, t, i + 1, i)
  }

  function ResolveIndex<T>(segs: seq<Segment<T>>, t: real): nat
    requires |segs| >= 1
  {
    ResolveFrom(segs, t, 0, 0)
  }

  lemma {:induction false} ResolveFromSpec<T>(segs: seq<Segment<T>>, t: real, i: nat)
    requires SortedBy(segs, SegmentStart)
    requires 1 <= i <= |segs|
    requires segs[i - 1].start <= t
    ensures var k := ResolveFrom(segs, t, i, i - 1);
      && i - 1 <= k < |segs|
      && segs[k].start <= t
      && (forall j :: k < j < |segs| ==> segs[j].start > t)
    decreases |segs| - i
  {
    if i < |segs| && segs[i].start <= t {
      ResolveFromSpec(segs, t, i + 1);
    }
  }

  /** On sorted segments the lookup picks the last segment that starts at or
    * before t, or the first segment when t precedes them all. */
  lemma ResolveIndexSpec<T>(segs: seq<Segment<T>>, t: real)
    requires |segs| >= 1 && SortedBy(segs, SegmentStart)
    ensures ResolveIndex(segs, t) < |segs|
    ensures t < segs[0].start ==> ResolveIndex(segs, t) == 0
    ensures segs[0].start <= t ==>
      && segs[ResolveIndex(segs, t)].start <= t
      && (forall j :: ResolveIndex(segs, t) < j < |segs| ==> segs[j].start > t)
  {
    if segs[0].start <= t {
      ResolveFromSpec(segs, t, 1);
    }
  }

  /** `resolveSegment`, as the source loops. */
  method ResolveSegment<T>(tr: Track<T>, t: real) returns (s: Segment<T>)
    requires |tr.segments| >= 1
    ensures s == tr.segments[ResolveIndex(tr.segments, t)]
  {
    var segs := tr.segments;
    s := segs[0];
    ghost var c: nat := 0;
    var i := 0;
    while i < |segs|
      invariant 0 <= i <= |segs| && c < |segs|
      invariant s == segs[c]
      invariant ResolveFrom(segs, t, i, c) == ResolveIndex(segs, t)
    {
      if segs[i].start > t {
        break;
      }
      s := segs[i];
      c := i;
      i := i + 1;
    }
  }

  /** `TimelineTrack.get`. */
  function SampleTrack<T>(tr: Track<T>, t: real): T
    requires WellFormed(tr)
  {
    SampleSegmentAt(tr.segments[ResolveIndex(tr.segments, t)], t)
  }

  method Get<T>(tr: Track<T>, t: real) returns (v: T)
    requires WellFormed(tr)
    ensures v == SampleTrack(tr, t)
  {
    var s := ResolveSegment(tr, t);
    v := Channels.Get(s.channel, StartTime(s.channel) + (t - s.start));
  }

  /** Between the start of segment k and the start of the next one the track
    * plays segment k; before the first start it plays the first segment. */
  lemma TrackUsesSegment<T>(tr: Track<T>, k: nat, t: real)
    requires TrackValid(tr) && WellFormed(tr) && k < |tr.segments|
    requires k == 0 || tr.segments[k].start <= t
    requires k + 1 < |tr.segments| ==> t < tr.segments[k + 1].start
    ensures SampleTrack(tr, t) == SampleSegmentAt(tr.segments[k], t)
  {
    var segs := tr.segments;
    ResolveIndexSpec(segs, t);
    var r := ResolveIndex(segs, t);
    if segs[0].start <= t && r < k {
      assert false;
    }
  }

  // --------------------------------------------------------------- builder

  /** `TimelineTrack.Builder`. */
  class TrackBuilder<T> {
    var segments: seq<Segment<T>>

    constructor ()
      ensures segments == []
    {
      segments := [];
    }

    /** `add(start, channel)`: the segment constructor's failure propagates. */
    method Add(start: real, channel: Option<Channel<T>>) returns (failure: Option<Failure>)
      modifies this
      ensures channel.Some? ==> failure == None && segments == old(segments) + [Segment(start, channel.value)]
      ensures channel.None? ==> failure == Some(NullPointer("channel")) && segments == old(segments)
    {
      var r := MakeSegment(start, channel);
      if r.Err? {
        return Some(r.failure);
      }
      segments := segments + [r.value];
      failure := None;
    }

    method Build() returns (r: Result<Track<T>>)
      ensures r == MakeTrack(segments)
    {
      r := MakeTrack(segments);
    }
  }

  // --------------------------------------------------------------- example

  function Linear(a: real, b: real): Channel<real>
  {
    Channel([KeyframeOf(0.0, a), KeyframeOf(1.0, b)], DoubleInterpolate, Hold, Hold)
  }

  lemma LinearSample(a: real, b: real, t: real)
    ensures 0.0 <= t <= 1.0 ==> Sample(Linear(a, b), t) == a + (b - a) * t
    ensures t < 0.0 ==> Sample(Linear(a, b), t) == a
    ensures t > 1.0 ==> Sample(Linear(a, b), t) == b
  {
    var ch := Linear(a, b);
    if 0.0 <= t <= 1.0 {
      DoubleInterpolateLinear(ch.keyframes[0], ch.keyframes[1], t, 1.0);
    }
  }

  function ExampleSegments(): seq<Segment<real>>
  {
    [Segment(0.0, Linear(0.0, 10.0)), Segment(1.0, Linear(10.0, 20.0))]
  }

  lemma LinearValid(a: real, b: real)
    ensures Valid(Linear(a, b))
  {
    var kfs := Linear(a, b).keyframes;
    assert KeyTime(kfs[0]) == 0.0 && KeyTime(kfs[1]) == 1.0;
  }

  /** Two one-second segments, 0 to 10 at time 0 and 10 to 20 at time 1:
    * the track keeps them in this order. */
  lemma ExampleTrackBuilt()
    ensures MakeTrack(ExampleSegments()) == Ok(Track(ExampleSegments()))
    ensures WellFormed(Track(ExampleSegments())) && TrackValid(Track(ExampleSegments()))
  {
    var segs := ExampleSegments();
    assert SegmentStart(segs[0]) == 0.0 && SegmentStart(segs[1]) == 1.0;
    assert SortedBy(segs, SegmentStart);
    SortBySorted(segs, SegmentStart);
    LinearValid(0.0, 10.0);
    LinearValid(10.0, 20.0);
  }

  /** HOLD before the first segment, each segment during its second, HOLD
    * after the last. */
  lemma ExampleTrackSamples()
    ensures var tr := Track(ExampleSegments());
      && WellFormed(tr)
      && SampleTrack(tr, -1.0) == 0.0
      && SampleTrack(tr, 0.5) == 5.0
      && SampleTrack(tr, 1.5) == 15.0
      && SampleTrack(tr, 3.0) == 20.0
  {
    var segs := ExampleSegments();
    var tr := Track(segs);
    assert ResolveIndex(segs, -1.0) == 0;
    assert ResolveIndex(segs, 0.5) == 0;
    assert ResolveIndex(segs, 1.5) == 1;
    assert ResolveIndex(segs, 3.0) == 1;
    ExampleAt(segs[0], -1.0, 0.0);
    ExampleAt(segs[0], 0.5, 5.0);
    ExampleAt(segs[1], 1.5, 15.0);
    ExampleAt(segs[1], 3.0, 20.0);
  }

  lemma ExampleAt(s: Segment<real>, t: real, v: real)
    requires s == Segment(0.0, Linear(0.0, 10.0)) || s == Segment(1.0, Linear(10.0, 20.0))
    requires (s.start, t, v) in {(0.0, -1.0, 0.0), (0.0, 0.5, 5.0), (1.0, 1.5, 15.0), (1.0, 3.0, 20.0)}
    ensures |s.channel.keyframes| >= 1 && SampleSegmentAt(s, t) == v
  {
    var local := t - s.start;
    assert StartTime(s.channel) + (t - s.start) == local;
    LinearSample(s.channel.keyframes[0].value, s.channel.keyframes[1].value, local);
  }
}
