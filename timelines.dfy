/** A timeline: property tracks of several value types, sampled together into
  * a snapshot. */
module Timelines {
  import opened Wrappers
  import opened Geometry
  import opened Anchors
  import opened Values
  import opened Tracks

  /** The track of a timeline entry, tagged with its value type. */
  datatype AnyTrack =
    | Doubles(doubles: Track<real>)
    | Integers(integers: Track<int>)
    | Booleans(booleans: Track<bool>)
    | Vectors(vectors: Track<Vec3>)
    | Quaternions(quaternions: Track<Quat>)
    | Anchors(anchors: Track<Provider>)
    | Objects(objects: Track<Value>)

  ghost predicate AnyWellFormed(a: AnyTrack)
  {
    match a
      case Doubles(tr) => WellFormed(tr)
      case Integers(tr) => WellFormed(tr)
      case Booleans(tr) => WellFormed(tr)
      case Vectors(tr) => WellFormed(tr)
      case Quaternions(tr) => WellFormed(tr)
      case Anchors(tr) => WellFormed(tr)
      case Objects(tr) => WellFormed(tr)
  }

  function AnyEnd(a: AnyTrack): real
    requires AnyWellFormed(a)
  {
    match a
      case Doubles(tr) => TrackEnd(tr)
      case Integers(tr) => TrackEnd(tr)
      case Booleans(tr) => TrackEnd(tr)
      case Vectors(tr) => TrackEnd(tr)
      case Quaternions(tr) => TrackEnd(tr)
      case Anchors(tr) => TrackEnd(tr)
      case Objects(tr) => TrackEnd(tr)
  }

  /** The sampled value, boxed as the snapshot stores it. */
  function AnySample(a: AnyTrack, t: real): Value
    requires AnyWellFormed(a)
  {
    match a
      case Doubles(tr) => Double(SampleTrack(tr, t))
      case Integers(tr) => Int(SampleTrack(tr, t))
      case Booleans(tr) => Bool(SampleTrack(tr, t))
      case Vectors(tr) => Vector(SampleTrack(tr, t))
      case Quaternions(tr) => Quaternion(SampleTrack(tr, t))
      case Anchors(tr) => Anchor(SampleTrack(tr, t))
      case Objects(tr) => SampleTrack(tr, t)
  }

  /** `Timeline.TrackEntry`. */
  datatype Entry = Entry(property: Property, track: AnyTrack)

  ghost predicate EntriesWellFormed(es: seq<Entry>)
  {
    forall i :: 0 <= i < |es| ==> AnyWellFormed(es[i].track)
  }

  datatype Timeline = Timeline(entries: seq<Entry>, duration: real)

  // --------------------------------------------------------------- duration

  /** The running maximum of `computeDuration`, starting from zero. */
  function MaxEnd(es: seq<Entry>): real
    requires EntriesWellFormed(es)
  {
    if |es| == 0 then 0.0
    else
      var m := MaxEnd(es[..|es| - 1]);
      var end := AnyEnd(es[|es| - 1].track);
      if end > m then end else m
  }

  /** The duration is the latest track end, and never negative: zero when
    * every track ends at or before zero. */
  lemma {:induction false} MaxEndSpec(es: seq<Entry>)
    requires EntriesWellFormed(es)
    ensures MaxEnd(es) >= 0.0
    ensures forall i :: 0 <= i < |es| ==> AnyEnd(es[i].track) <= MaxEnd(es)
    ensures MaxEnd(es) == 0.0 || exists i :: 0 <= i < |es| && AnyEnd(es[i].track) == MaxEnd(es)
  {
    if |es| > 0 {
      var init := es[..|es| - 1];
      assert EntriesWellFormed(init) by {
        forall i | 0 <= i < |init| ensures AnyWellFormed(init[i].track) {
          assert init[i] == es[i];
        }
      }
      MaxEndSpec(init);
      forall i | 0 <= i < |init| ensures AnyEnd(es[i].track) <= MaxEnd(es) {
        assert init[i] == es[i];
      }
      if MaxEnd(es) != 0.0 && MaxEnd(es) == MaxEnd(init) {
        var i :| 0 <= i < |init| && AnyEnd(init[i].track) == MaxEnd(init);
        assert init[i] == es[i];
      }
    }
  }

  /** `computeDuration`, as the source loops. */
  method ComputeDuration(es: seq<Entry>) returns (max: real)
    requires EntriesWellFormed(es)
    ensures max == MaxEnd(es)
  {
    max := 0.0;
    var i := 0;
    while i < |es|
      invariant 0 <= i <= |es|
      invariant EntriesWellFormed(es[..i])
      invariant max == MaxEnd(es[..i])
    {
      assert es[..i + 1][..i] == es[..i];
      var end := AnyEnd(es[i].track);
      if end > max {
        max := end;
      }
      i := i + 1;
    }
    assert es[..i] == es;
  }

  /** The constructor (`fromTracks`): at least one entry. */
  function MakeTimeline(es: seq<Entry>): (r: Result<Timeline>)
    requires EntriesWellFormed(es)
    ensures r.Ok? <==> |es| > 0
    ensures r.Err? ==> r.failure.IllegalArgument?
    ensures r.Ok? ==> r.value.entries == es
    ensures r.Ok? ==> r.value.duration >= 0.0 && forall i :: 0 <= i < |es| ==> AnyEnd(es[i].track) <= r.value.duration
    ensures r.Ok? ==> r.value.duration == 0.0 || exists i :: 0 <= i < |es| && AnyEnd(es[i].track) == r.value.duration
  {
    if |es| == 0 then Err(IllegalArgument("timeline requires at least one track"))
    else MaxEndSpec(es); Ok(Timeline(es, MaxEnd(es)))
  }

  // ------------------------------------------------------------ track(p)

  /** `track(p)`: the first entry for the property, or null. */
  function FindTrack(es: seq<Entry>, p: Property): Option<AnyTrack>
  {
    if |es| == 0 then None
    else if es[0].property == p then Some(es[0].track)
    else FindTrack(es[1..], p)
  }

  lemma {:induction false} FindTrackSpec(es: seq<Entry>, p: Property)
    ensures FindTrack(es, p).None? <==> forall i :: 0 <= i < |es| ==> es[i].property != p
    ensures FindTrack(es, p).Some? ==>
      exists i :: 0 <= i < |es| && es[i].property == p && FindTrack(es, p).value == es[i].track
        && forall j :: 0 <= j < i ==> es[j].property != p
  {
    if |es| > 0 && es[0].property != p {
      FindTrackSpec(es[1..], p);
      if FindTrack(es[1..], p).Some? {
        var i :| 0 <= i < |es[1..]| && es[1..][i].property == p && FindTrack(es[1..], p).value == es[1..][i].track
          && forall j :: 0 <= j < i ==> es[1..][j].property != p;
        assert es[i + 1].property == p && forall j :: 0 <= j < i + 1 ==> es[j].property != p by {
          forall j | 0 <= j < i + 1 ensures es[j].property != p {
            if j > 0 { assert es[j] == es[1..][j - 1]; }
          }
        }
      } else {
        forall i | 0 <= i < |es| ensures es[i].property != p {
          if i > 0 { assert es[i] == es[1..][i - 1]; }
        }
      }
    }
  }

  method Track(tl: Timeline, p: Property) returns (r: Option<AnyTrack>)
    ensures r == FindTrack(tl.entries, p)
  {
    var i := 0;
    while i < |tl.entries|
      invariant 0 <= i <= |tl.entries|
      invariant FindTrack(tl.entries[i..], p) == FindTrack(tl.entries, p)
    {
      assert tl.entries[i..][1..] == tl.entries[i + 1..];
      if tl.entries[i].property == p {
        return Some(tl.entries[i].track);
      }
      i := i + 1;
    }
    return None;
  }

  // ------------------------------------------------------------- get(t)

  /** The map `get` fills: each entry in order puts its sample, so a later
    * entry for the same property replaces an earlier one. */
  function SampleAll(es: seq<Entry>, t: real): map<Property, Value>
    requires EntriesWellFormed(es)
  {
    if |es| == 0 then map[]
    else
      var init := es[..|es| - 1];
      assert EntriesWellFormed(init) by {
        forall i | 0 <= i < |init| ensures AnyWellFormed(init[i].track) {
          assert init[i] == es[i];
        }
      }
      SampleAll(init, t)[es[|es| - 1].property := AnySample(es[|es| - 1].track, t)]
  }

  /** The snapshot holds exactly the timeline's properties; each reads the
    * sample of the last entry for it. */
  lemma {:induction false} SampleAllSpec(es: seq<Entry>, t: real, p: Property)
    requires EntriesWellFormed(es)
    ensures p in SampleAll(es, t) <==> exists i :: 0 <= i < |es| && es[i].property == p
    ensures p in SampleAll(es, t) ==>
      exists i :: 0 <= i < |es| && es[i].property == p && SampleAll(es, t)[p] == AnySample(es[i].track, t)
        && forall j :: i < j < |es| ==> es[j].property != p
  {
    if |es| > 0 {
      var init := es[..|es| - 1];
      assert EntriesWellFormed(init) by {
        forall i | 0 <= i < |init| ensures AnyWellFormed(init[i].track) {
          assert init[i] == es[i];
        }
      }
      SampleAllSpec(init, t, p);
      if es[|es| - 1].property != p {
        if p in SampleAll(init, t) {
          var i :| 0 <= i < |init| && init[i].property == p && SampleAll(init, t)[p] == AnySample(init[i].track, t)
            && forall j :: i < j < |init| ==> init[j].property != p;
          assert es[i] == init[i];
          assert forall j :: i < j < |es| ==> es[j].property != p by {
            forall j | i < j < |es| ensures es[j].property != p {
              if j < |init| { assert es[j] == init[j]; }
            }
          }
        } else {
          forall i | 0 <= i < |es| ensures es[i].property != p {
            if i < |init| { assert es[i] == init[i]; }
          }
        }
      } else {
        assert es[|es| - 1].property == p;
      }
    }
  }

  /** `Timeline.get`: the snapshot of every track at `t`. */
  function Sample(tl: Timeline, t: real): Snapshot
    requires EntriesWellFormed(tl.entries)
  {
    Snapshot(SampleAll(tl.entries, t), t)
  }

  method Get(tl: Timeline, t: real) returns (s: Snapshot)
    requires EntriesWellFormed(tl.entries)
    ensures s == Sample(tl, t)
  {
    var values: map<Property, Value> := map[];
    var i := 0;
    var es := tl.entries;
    while i < |es|
      invariant 0 <= i <= |es|
      invariant EntriesWellFormed(es[..i])
      invariant values == SampleAll(es[..i], t)
    {
      assert es[..i + 1][..i] == es[..i];
      var e := es[i];
      var v := SampleAny(e.track, t);
      values := values[e.property := v];
      i := i + 1;
    }
    assert es[..i] == es;
    s := Snapshot(values, t);
  }

  /** `sampleEntry`: the entry's track sampled at `t`, boxed. */
  method SampleAny(a: AnyTrack, t: real) returns (v: Value)
    requires AnyWellFormed(a)
    ensures v == AnySample(a, t)
  {
    match a {
      case Doubles(tr) => var x := Tracks.Get(tr, t); v := Double(x);
      case Integers(tr) => var x := Tracks.Get(tr, t); v := Int(x);
      case Booleans(tr) => var x := Tracks.Get(tr, t); v := Bool(x);
      case Vectors(tr) => var x := Tracks.Get(tr, t); v := Vector(x);
      case Quaternions(tr) => var x := Tracks.Get(tr, t); v := Quaternion(x);
      case Anchors(tr) => var x := Tracks.Get(tr, t); v := Anchor(x);
      case Objects(tr) => v := Tracks.Get(tr, t);
    }
  }

  /** When no two entries share a property, the snapshot's value of a
    * property is the sample of the track `track(p)` returns. */
  lemma SnapshotMatchesTrack(tl: Timeline, t: real, p: Property)
    requires EntriesWellFormed(tl.entries)
    requires forall i, j :: 0 <= i < j < |tl.entries| ==> tl.entries[i].property != tl.entries[j].property
    ensures FindTrack(tl.entries, p).Some? <==> p in Sample(tl, t).values
    ensures FindTrack(tl.entries, p).Some? ==>
      AnyWellFormed(FindTrack(tl.entries, p).value)
      && Sample(tl, t).values[p] == AnySample(FindTrack(tl.entries, p).value, t)
  {
    FindTrackSpec(tl.entries, p);
    SampleAllSpec(tl.entries, t, p);
    if FindTrack(tl.entries, p).Some? {
      var i :| 0 <= i < |tl.entries| && tl.entries[i].property == p
        && FindTrack(tl.entries, p).value == tl.entries[i].track
        && forall j :: 0 <= j < i ==> tl.entries[j].property != p;
      var k :| 0 <= k < |tl.entries| && tl.entries[k].property == p
        && Sample(tl, t).values[p] == AnySample(tl.entries[k].track, t)
        && forall j :: k < j < |tl.entries| ==> tl.entries[j].property != p;
      if i != k {
        assert false;
      }
    }
  }

  /** With two entries for one property, `track(p)` and the snapshot disagree:
    * the first track is returned, the last one's value is stored. */
  lemma DuplicatePropertyExample(p: Property, first: Track<real>, second: Track<real>, t: real)
    requires WellFormed(first) && WellFormed(second)
    ensures var tl := Timeline([Entry(p, Doubles(first)), Entry(p, Doubles(second))], 0.0);
      && FindTrack(tl.entries, p) == Some(Doubles(first))
      && Sample(tl, t).values[p] == Double(SampleTrack(second, t))
  {
    var es := [Entry(p, Doubles(first)), Entry(p, Doubles(second))];
    assert es[..1] == [Entry(p, Doubles(first))];
    assert es[..1][..0] == [];
  }
}
