/** `EffectClip`: one timeline playback fanned out to layers of effects, each
  * with its own bindings and a pair of swapped particle buffers; and
  * `EffectClipBuilder`, which validates and assembles a clip. */
module Clips {
  import opened Wrappers
  import opened JavaInt
  import opened Geometry
  import opened Anchors
  import opened Values
  import opened Params
  import opened Particles
  import opened Binder
  import opened Bindings
  import opened BindingBuilders
  import opened Timelines
  import opened Playback

  /** A player of the game server, known by an identifier. */
  type Player = nat

  /** What a layer hands the renderer on one tick: the particles, the world
    * transform to place them with, and the audience. */
  datatype Frame = Frame(particles: seq<Vertex>, world: Transform, audience: seq<Player>)

  /** What the playback context supplies besides the clock: anchor
    * resolution, the trigonometry of the math library, and its string
    * conversions. */
  datatype Env = Env(world: World, trig: Trig, lib: Library)

  ghost predicate NullFree(m: map<string, Value>)
  {
    forall k :: k in m ==> m[k] != Null
  }

  // ------------------------------------------------------------ parameters

  /** The parameters a layer's effect sees: the root parameters, overridden
    * key by key by the layer's own. */
  function LayerParams(root: map<string, Value>, local: map<string, Value>): (r: map<string, Value>)
    ensures r.Keys == root.Keys + local.Keys
    ensures forall k :: k in local ==> r[k] == local[k]
    ensures forall k :: k in root && k !in local ==> r[k] == root[k]
  {
    if root == map[] then local else root + local
  }

  /** `EvaluatedParams.fromValues` of the merged parameters: both sides come
    * from binding results, which hold no null, so the copy never fails. */
  function LayerEvaluated(root: map<string, Value>, local: map<string, Value>): (r: Result<EvaluatedParams>)
    ensures NullFree(root) && NullFree(local) ==> r == Ok(EvaluatedParams(LayerParams(root, local)))
    ensures r.Err? ==> r.failure.NullPointer?
  {
    FromValues(Some(LayerParams(root, local)))
  }

  // ----------------------------------------------------------------- layer

  /** `EffectClip.Layer`. */
  class Layer {
    const effect: AnimatedEffect
    const bindings: TimelineBindings
    const players: Option<seq<Player>>
    const bufferA: PooledParticleBuffer
    const bufferB: PooledParticleBuffer
    var writeBuffer: PooledParticleBuffer
    var readBuffer: PooledParticleBuffer
    /** The objects this layer owns. */
    ghost const Repr: set<object>

    /** The two buffers are distinct, one is written and the other read. */
    ghost predicate Valid()
      reads Repr
    {
      && Repr == {this, bufferA, bufferB, effect, effect.instance}
      && bufferA != bufferB
      && ((writeBuffer == bufferA && readBuffer == bufferB) || (writeBuffer == bufferB && readBuffer == bufferA))
      && bufferA.Valid() && bufferB.Valid()
      && effect.instance.Valid()
    }

    /** Two buffers of `max(16, bufferCapacity)` vertices; A is written
      * first. */
    constructor (effect: AnimatedEffect, bindings: TimelineBindings, bufferCapacity: int, players: Option<seq<Player>>)
      requires effect.instance.Valid()
      ensures Valid() && fresh(bufferA) && fresh(bufferB) && Repr == {this, bufferA, bufferB, effect, effect.instance}
      ensures this.effect == effect && this.bindings == bindings && this.players == players
      ensures writeBuffer == bufferA && readBuffer == bufferB
      ensures bufferA.active == 0 && bufferB.active == 0
      ensures |bufferA.pool| == Max(MinPool, bufferCapacity) && |bufferB.pool| == Max(MinPool, bufferCapacity)
    {
      this.effect := effect;
      this.bindings := bindings;
      this.players := players;
      var a := new PooledParticleBuffer(Max(16, bufferCapacity));
      var b := new PooledParticleBuffer(Max(16, bufferCapacity));
      bufferA := a;
      bufferB := b;
      writeBuffer := a;
      readBuffer := b;
      Repr := {this, a, b, effect, effect.instance};
    }

    /** `swapBuffers`. */
    method SwapBuffers()
      requires Valid()
      modifies this
      ensures Valid()
      ensures readBuffer == old(writeBuffer) && writeBuffer == old(readBuffer)
    {
      var temp := readBuffer;
      readBuffer := writeBuffer;
      writeBuffer := temp;
    }

    /** The parameters this layer's effect is sampled with. */
    function Params(snapshot: Snapshot, rootParams: map<string, Value>, env: Env): EvaluatedParams
      requires NullFree(rootParams)
    {
      var local := Evaluate(bindings, Some(snapshot), env.world, env.trig).value;
      LayerEvaluated(rootParams, local.parameters).value
    }

    /** `render`: evaluate the local bindings; sample the effect into the
      * write buffer with the root parameters overridden by the local ones;
      * hand the renderer the read buffer, placed at the root transform
      * composed with the local one; then swap the buffers. The renderer is
      * therefore always shown what was written on the previous tick. */
    method Render(snapshot: Snapshot, parent: Transform, rootParams: map<string, Value>,
                  defaultPlayers: seq<Player>, env: Env) returns (frame: Frame)
      requires Valid() && NullFree(rootParams)
      modifies Repr
      ensures Valid()
      ensures var local := Evaluate(bindings, Some(snapshot), env.world, env.trig).value;
        frame == Frame(old(readBuffer.View()), Compose(parent, local.transform), players.GetOr(defaultPlayers))
      ensures readBuffer == old(writeBuffer) && writeBuffer == old(readBuffer)
      ensures writeBuffer.pool == old(readBuffer.pool) && writeBuffer.active == old(readBuffer.active)
      ensures effect.instance.fields ==
        BoundFields(effect.instance.schema, old(effect.instance.fields), Some(Params(snapshot, rootParams, env)), env.lib.parse, env.lib.show)
      ensures ShouldRender(effect.instance.fields != old(effect.instance.fields), effect.usesContext, old(effect.hasRenderedOnce)) ==>
        readBuffer.View() == VerticesOf(effect.render(effect.instance.fields))
      ensures !ShouldRender(effect.instance.fields != old(effect.instance.fields), effect.usesContext, old(effect.hasRenderedOnce)) ==>
        readBuffer.pool == old(writeBuffer.pool) && readBuffer.active == old(writeBuffer.active)
    {
      var localResult := EvaluateBindings(bindings, Some(snapshot), env.world, env.trig);
      var local := localResult.value;
      var world := Compose(parent, local.transform);
      var params := if rootParams == map[] then local.parameters else rootParams + local.parameters;
      assert NullFree(local.parameters);
      var evaluated := FromValues(Some(params));
      assert evaluated == Ok(Params(snapshot, rootParams, env));
      var shownBuffer := readBuffer;
      ghost var shown := readBuffer.View();
      effect.Sample(Some(evaluated.value), writeBuffer, env.lib);
      assert readBuffer.View() == shown;
      var audience := if players.Some? then players.value else defaultPlayers;
      frame := Frame(readBuffer.View(), world, audience);
      SwapBuffers();
    }
  }

  /** `TimelineBindings.evaluate` as `tick` sees it: the result never holds
    * a null parameter. */
  method EvaluateRoot(tbs: TimelineBindings, snapshot: Snapshot, env: Env) returns (r: BindingResult)
    ensures r == Evaluate(tbs, Some(snapshot), env.world, env.trig).value && NullFree(r.parameters)
  {
    var result := EvaluateBindings(tbs, Some(snapshot), env.world, env.trig);
    r := result.value;
  }

  /** `TimelinePlayback.sample` as `tick` sees it. */
  method SamplePlayback(p: TimelinePlayback, nowTick: int, tickToSeconds: real) returns (s: Option<Snapshot>)
    requires EntriesWellFormed(p.timeline.entries)
    modifies p
    ensures p.startedTick == old(p.startedTick)
    ensures (p.lastSnapshot, p.finished) == old(p.Sampled(nowTick, tickToSeconds)) && s == p.lastSnapshot
  {
    s := p.Sample(nowTick, tickToSeconds);
  }

  /** `render` as `tick` sees it: the frame handed over and the swap. */
  method RenderInClip(layer: Layer, snapshot: Snapshot, parent: Transform, rootParams: map<string, Value>,
                      defaultPlayers: seq<Player>, env: Env) returns (frame: Frame)
    requires layer.Valid() && NullFree(rootParams)
    modifies layer.Repr
    ensures layer.Valid()
    ensures frame == Frame(old(layer.readBuffer.View()),
                           Compose(parent, Evaluate(layer.bindings, Some(snapshot), env.world, env.trig).value.transform),
                           layer.players.GetOr(defaultPlayers))
    ensures layer.readBuffer == old(layer.writeBuffer) && layer.writeBuffer == old(layer.readBuffer)
  {
    frame := layer.Render(snapshot, parent, rootParams, defaultPlayers, env);
  }

  /** What a layer's two buffers show, by view: the one written next and the
    * one handed to the renderer next. */
  datatype BufferViews = BufferViews(write: seq<Vertex>, read: seq<Vertex>)

  /** One tick of a layer on views: the effect either rendered `emitted`
    * into the write buffer or skipped; the read buffer is shown; the two
    * are swapped. `Layer.Render`'s contract is this step on its buffers. */
  function LayerStep(b: BufferViews, emitted: Option<seq<Vertex>>): (r: (BufferViews, seq<Vertex>))
    ensures r.1 == b.read
    ensures r.0.write == b.read
    ensures r.0.read == if emitted.Some? then emitted.value else b.write
  {
    (BufferViews(b.read, if emitted.Some? then emitted.value else b.write), b.read)
  }

  /** The frames shown over a run of ticks. */
  function ShownOver(b: BufferViews, ticks: seq<Option<seq<Vertex>>>): (r: seq<seq<Vertex>>)
    ensures |r| == |ticks|
    decreases |ticks|
  {
    if |ticks| == 0 then []
    else
      var step := LayerStep(b, ticks[0]);
      [step.1] + ShownOver(step.0, ticks[1..])
  }

  /** `n` ticks on which the effect skips rendering. */
  function Skips(n: nat): (r: seq<Option<seq<Vertex>>>)
    ensures |r| == n && forall i :: 0 <= i < n ==> r[i] == None
  {
    seq(n, _ => None)
  }

  /** An effect that renders once and then skips (its fields never change
    * and it does not use the context) is shown only on alternate ticks:
    * the first frame is the empty buffer, the second its particles, the
    * third the other, still empty, buffer, and so on. */
  lemma StaticEffectAlternates(particles: seq<Vertex>, n: nat)
    ensures var shown := ShownOver(BufferViews([], []), [Some(particles)] + Skips(n));
      forall i :: 0 <= i < n + 1 ==> shown[i] == if i % 2 == 1 then particles else []
  {
    var skips := Skips(n);
    var ticks := [Some(particles)] + skips;
    assert ticks[0] == Some(particles) && ticks[1..] == skips;
    var shown := ShownOver(BufferViews([], []), ticks);
    var rest := ShownOver(BufferViews([], particles), skips);
    assert shown == [[]] + rest;
    AlternatesFrom(particles, n, 0);
    assert Phase(particles, 0) == BufferViews([], particles);
    forall i | 0 <= i < n + 1
      ensures shown[i] == if i % 2 == 1 then particles else []
    {
      if i > 0 {
        assert shown[i] == rest[i - 1];
        assert rest[i - 1] == if (i - 1) % 2 == 0 then particles else [];
      } else {
        assert shown[0] == [];
      }
    }
  }

  /** The buffers of a skipping effect trade places every tick. */
  lemma {:induction false} AlternatesFrom(particles: seq<Vertex>, n: nat, phase: nat)
    ensures forall i :: 0 <= i < n ==>
      ShownOver(Phase(particles, phase), Skips(n))[i] == if (i + phase) % 2 == 0 then particles else []
    decreases n
  {
    var b := Phase(particles, phase);
    var skips := Skips(n);
    if n > 0 {
      var tail := Skips(n - 1);
      assert skips[0] == None && skips[1..] == tail;
      AlternatesFrom(particles, n - 1, phase + 1);
      assert LayerStep(b, None).0 == Phase(particles, phase + 1);
      var shown := ShownOver(b, skips);
      var rest := ShownOver(Phase(particles, phase + 1), tail);
      assert shown == [b.read] + rest;
      forall i | 0 <= i < n
        ensures shown[i] == if (i + phase) % 2 == 0 then particles else []
      {
        if i > 0 {
          assert shown[i] == rest[i - 1];
          assert rest[i - 1] == if (i - 1 + (phase + 1)) % 2 == 0 then particles else [];
          assert i - 1 + (phase + 1) == i + phase;
        } else {
          assert shown[0] == b.read;
        }
      }
    }
  }

  /** The buffers `phase` ticks after a single render: the rendered one is
    * read on even phases. */
  function Phase(particles: seq<Vertex>, phase: nat): BufferViews
  {
    if phase % 2 == 0 then BufferViews([], particles) else BufferViews(particles, [])
  }

  // ------------------------------------------------------------------ clip

  /** Every object a list of layers owns. */
  ghost function LayersFootprint(ls: seq<Layer>): set<object>
  {
    set l, o | l in ls && o in l.Repr :: o
  }

  /** The layers own pairwise disjoint objects: no buffer and no effect is
    * shared. */
  ghost predicate Disjoint(ls: seq<Layer>)
  {
    forall i, j :: 0 <= i < |ls| && 0 <= j < |ls| && i != j ==> ls[i].Repr !! ls[j].Repr
  }

  ghost predicate AllValid(ls: seq<Layer>)
    reads LayersFootprint(ls)
  {
    forall i :: 0 <= i < |ls| ==> ls[i].Valid()
  }

  /** Layers own no playback and no clip. */
  lemma NotOwned(ls: seq<Layer>, p: TimelinePlayback, c: EffectClip)
    requires AllValid(ls)
    ensures p !in LayersFootprint(ls) && c !in LayersFootprint(ls)
  {
    forall l | l in ls
      ensures p !in l.Repr && c !in l.Repr
    {
      var i :| 0 <= i < |ls| && ls[i] == l;
      assert ls[i].Valid();
    }
  }

  class EffectClip {
    const playback: TimelinePlayback
    const rootBindings: TimelineBindings
    const layers: seq<Layer>
    const players: seq<Player>
    var startedAtTick: int

    ghost function Footprint(): set<object>
    {
      LayersFootprint(layers)
    }

    ghost predicate Valid()
      reads Footprint()
    {
      && playback.Valid() && EntriesWellFormed(playback.timeline.entries)
      && Disjoint(layers) && AllValid(layers) && playback !in Footprint() && this !in Footprint()
    }

    /** `fromBuilder`: a null audience becomes the empty one; the clip starts
      * stopped. */
    constructor (playback: TimelinePlayback, rootBindings: TimelineBindings, layers: seq<Layer>, players: Option<seq<Player>>)
      requires playback.Valid() && EntriesWellFormed(playback.timeline.entries)
      requires Disjoint(layers) && AllValid(layers)
      ensures Valid()
      ensures this.playback == playback && this.rootBindings == rootBindings && this.layers == layers
      ensures this.players == players.GetOr([]) && startedAtTick == -1
    {
      this.playback := playback;
      this.rootBindings := rootBindings;
      this.layers := layers;
      this.players := if players.Some? then players.value else [];
      startedAtTick := -1;
      new;
      NotOwned(layers, playback, this);
    }

    /** `start`: record the tick and restart the playback there. */
    method Start(nowTick: int)
      requires IsInt64(nowTick)
      modifies this, playback
      ensures startedAtTick == nowTick
      ensures playback.startedTick == nowTick && !playback.finished && playback.lastSnapshot == None
    {
      startedAtTick := nowTick;
      playback.Start(nowTick);
    }

    /** `stop`: the clip is stopped; the playback is left as it is. */
    method Stop()
      modifies this
      ensures startedAtTick == -1
    {
      startedAtTick := -1;
    }

    /** `isDone`: exactly the playback's finished flag. */
    predicate IsDone()
      reads playback
    {
      playback.finished
    }

    /** The frame layer `i` hands the renderer for a snapshot, given what its
      * read buffer held. */
    function FrameOf(i: int, snapshot: Snapshot, shown: seq<Vertex>, env: Env): Frame
      requires 0 <= i < |layers|
    {
      var root := Evaluate(rootBindings, Some(snapshot), env.world, env.trig).value;
      var local := Evaluate(layers[i].bindings, Some(snapshot), env.world, env.trig).value;
      Frame(shown, Compose(root.transform, local.transform), layers[i].players.GetOr(players))
    }

    /** `tick`: nothing before `start` or after `stop`; otherwise sample the
      * playback, and when that yields
      * a snapshot render every layer in list order against the same root
      * transform and parameters. The frames are what the renderer was
      * handed, in order. */
    method Tick(nowTick: int, tickToSeconds: real, env: Env) returns (frames: seq<Frame>)
      requires Valid()
      modifies playback, Footprint()
      ensures Valid()
      ensures startedAtTick < 0 ==> frames == [] && unchanged(playback) && unchanged(Footprint())
      ensures startedAtTick >= 0 ==>
        playback.startedTick == old(playback.startedTick)
        && (playback.lastSnapshot, playback.finished) == old(playback.Sampled(nowTick, tickToSeconds))
      ensures startedAtTick >= 0 && playback.lastSnapshot.None? ==> frames == [] && unchanged(Footprint())
      ensures startedAtTick >= 0 && playback.lastSnapshot.Some? ==> |frames| == |layers|
      ensures startedAtTick >= 0 && playback.lastSnapshot.Some? ==> forall i :: 0 <= i < |layers| ==>
        frames[i] == FrameOf(i, playback.lastSnapshot.value, old(layers[i].readBuffer.View()), env)
        && layers[i].readBuffer == old(layers[i].writeBuffer) && layers[i].writeBuffer == old(layers[i].readBuffer)
    {
      frames := [];
      if startedAtTick < 0 {
        return;
      }
      var snapshot := SampleClip(nowTick, tickToSeconds);
      if snapshot.None? {
        return;
      }
      frames := RenderLayers(snapshot.value, env);
    }

    /** The sampling step of `tick`: only the playback changes. */
    method SampleClip(nowTick: int, tickToSeconds: real) returns (s: Option<Snapshot>)
      requires Valid()
      modifies playback
      ensures Valid() && unchanged(Footprint())
      ensures forall i :: 0 <= i < |layers| ==>
        unchanged(layers[i], layers[i].bufferA, layers[i].bufferB)
        && layers[i].readBuffer.View() == old(layers[i].readBuffer.View())
      ensures playback.startedTick == old(playback.startedTick)
      ensures (playback.lastSnapshot, playback.finished) == old(playback.Sampled(nowTick, tickToSeconds))
      ensures s == playback.lastSnapshot
    {
      s := SamplePlayback(playback, nowTick, tickToSeconds);
      forall i | 0 <= i < |layers|
        ensures unchanged(layers[i], layers[i].bufferA, layers[i].bufferB)
        ensures layers[i].readBuffer.View() == old(layers[i].readBuffer.View())
      {
        assert layers[i].Valid();
      }
    }

    /** The loop of `tick` over the layers. */
    method RenderLayers(snapshot: Snapshot, env: Env) returns (frames: seq<Frame>)
      requires Valid()
      modifies Footprint()
      ensures Valid() && unchanged(playback)
      ensures |frames| == |layers|
      ensures forall i :: 0 <= i < |layers| ==>
        frames[i] == FrameOf(i, snapshot, old(layers[i].readBuffer.View()), env)
        && layers[i].readBuffer == old(layers[i].writeBuffer) && layers[i].writeBuffer == old(layers[i].readBuffer)
    {
      var root := EvaluateRoot(rootBindings, snapshot, env);
      frames := [];
      var i := 0;
      while i < |layers|
        invariant 0 <= i <= |layers| && |frames| == i
        invariant AllValid(layers)
        invariant forall j :: 0 <= j < i ==>
          frames[j] == FrameOf(j, snapshot, old(layers[j].readBuffer.View()), env)
          && layers[j].readBuffer == old(layers[j].writeBuffer) && layers[j].writeBuffer == old(layers[j].readBuffer)
        invariant forall j :: i <= j < |layers| ==> unchanged(layers[j], layers[j].bufferA, layers[j].bufferB)
      {
        var layer := layers[i];
        var frame := RenderInClip(layer, snapshot, root.transform, root.parameters, players, env);
        frames := frames + [frame];
        i := i + 1;
      }
    }
  }

  // --------------------------------------------------------------- builder

  /** One call a playback configurator makes on `TimelinePlayback.Builder`. */
  datatype PlaybackSetting =
    | SetSpeed(speed: real)
    | SetDelaySeconds(delay: real)
    | SetLoopCount(count: int)
    | SetLoopInfinite
    | SetLoopDelaySeconds(loopDelay: real)

  /** A configurator: the setter calls it makes, in order. */
  type Configurator = seq<PlaybackSetting>

  predicate SettingsInRange(ss: seq<PlaybackSetting>)
  {
    forall i :: 0 <= i < |ss| ==> ss[i].SetLoopCount? ==> IsInt32(ss[i].count)
  }

  /** The configuration a `TimelinePlayback.Builder` holds. */
  datatype PlaybackConfig = PlaybackConfig(speed: real, startDelay: real, extraLoops: int, infinite: bool, loopDelay: real)

  const DefaultConfig: PlaybackConfig := PlaybackConfig(1.0, 0.0, 0, false, 0.0)

  predicate ConfigValid(c: PlaybackConfig)
  {
    c.speed > 0.0 && c.startDelay >= 0.0 && 0 <= c.extraLoops <= IntMax && c.loopDelay >= 0.0
  }

  /** One setter call: a refused argument throws and leaves the
    * configuration as it was. */
  function ApplySetting(c: PlaybackConfig, s: PlaybackSetting): (r: Result<PlaybackConfig>)
    ensures r.Err? ==> r.failure.IllegalArgument?
    ensures ConfigValid(c) && r.Ok? && (s.SetLoopCount? ==> IsInt32(s.count)) ==> ConfigValid(r.value)
  {
    match s
    case SetSpeed(v) => if v <= 0.0 then Err(IllegalArgument("speed must be > 0")) else Ok(c.(speed := v))
    case SetDelaySeconds(d) => if d < 0.0 then Err(IllegalArgument("delaySeconds must be >= 0")) else Ok(c.(startDelay := d))
    case SetLoopCount(n) => if n < 0 then Err(IllegalArgument("additionalLoops must be >= 0")) else Ok(c.(extraLoops := n, infinite := false))
    case SetLoopInfinite => Ok(c.(infinite := true))
    case SetLoopDelaySeconds(d) => if d < 0.0 then Err(IllegalArgument("loopDelaySeconds must be >= 0")) else Ok(c.(loopDelay := d))
  }

  /** The setter calls in order; the first refused one ends configuration. */
  function ApplySettings(c: PlaybackConfig, ss: seq<PlaybackSetting>): Result<PlaybackConfig>
    decreases |ss|
  {
    if |ss| == 0 then Ok(c)
    else
      match ApplySetting(c, ss[0])
      case Err(f) => Err(f)
      case Ok(c') => ApplySettings(c', ss[1..])
  }

  lemma {:induction false} ApplySettingsAppend(c: PlaybackConfig, ss: seq<PlaybackSetting>, s: PlaybackSetting)
    ensures ApplySettings(c, ss + [s]) ==
      match ApplySettings(c, ss)
      case Err(f) => Err(f)
      case Ok(c') => ApplySetting(c', s)
    decreases |ss|
  {
    if |ss| == 0 {
      assert ([s])[1..] == [];
    } else {
      assert (ss + [s])[0] == ss[0] && (ss + [s])[1..] == ss[1..] + [s];
      match ApplySetting(c, ss[0])
      case Err(f) =>
      case Ok(c') => ApplySettingsAppend(c', ss[1..], s);
    }
  }

  /** Configuring keeps the builder's checks: a configuration reached without
    * a refusal is one a playback can be built from. */
  lemma {:induction false} ApplySettingsValid(c: PlaybackConfig, ss: seq<PlaybackSetting>)
    requires ConfigValid(c) && SettingsInRange(ss)
    ensures ApplySettings(c, ss).Ok? ==> ConfigValid(ApplySettings(c, ss).value)
    ensures ApplySettings(c, ss).Err? ==> ApplySettings(c, ss).failure.IllegalArgument?
    decreases |ss|
  {
    if |ss| > 0 {
      match ApplySetting(c, ss[0])
      case Err(f) =>
      case Ok(c') =>
        assert SettingsInRange(ss[1..]) by {
          forall i | 0 <= i < |ss[1..]| ensures ss[1..][i].SetLoopCount? ==> IsInt32(ss[1..][i].count) {
            assert ss[1..][i] == ss[i + 1];
          }
        }
        ApplySettingsValid(c', ss[1..]);
    }
  }

  /** Later settings win, and the first refusal is the one reported. */
  lemma SettingsExamples()
    ensures ApplySettings(DefaultConfig, [SetSpeed(2.0), SetLoopCount(3), SetLoopInfinite]) ==
      Ok(PlaybackConfig(2.0, 0.0, 3, true, 0.0))
    ensures ApplySettings(DefaultConfig, [SetLoopInfinite, SetLoopCount(1)]) == Ok(PlaybackConfig(1.0, 0.0, 1, false, 0.0))
    ensures ApplySettings(DefaultConfig, [SetSpeed(0.0), SetLoopCount(-1)]) == Err(IllegalArgument("speed must be > 0"))
  {
    assert [SetSpeed(2.0), SetLoopCount(3), SetLoopInfinite][1..] == [SetLoopCount(3), SetLoopInfinite];
    assert [SetLoopCount(3), SetLoopInfinite][1..] == [SetLoopInfinite];
    assert [SetLoopInfinite, SetLoopCount(1)][1..] == [SetLoopCount(1)];
  }

  function Flatten(cs: seq<Configurator>): seq<PlaybackSetting>
  {
    if |cs| == 0 then [] else Flatten(cs[..|cs| - 1]) + cs[|cs| - 1]
  }

  /** The configuration of a playback builder. */
  function ConfigOf(b: PlaybackBuilder): PlaybackConfig
    reads b
  {
    PlaybackConfig(b.speed, b.startDelay, b.extraLoops, b.infinite, b.loopDelay)
  }

  /** A `LayerBuilder`'s settings: the effect (required), the bindings
    * (defaulting to an empty binding set), the buffer capacity and the
    * layer's own audience. */
  datatype LayerSpec = LayerSpec(effect: Option<AnimatedEffect>, bindings: Option<TimelineBindings>,
                                 bufferCapacity: int, players: Option<seq<Player>>)

  /** What `TimelineBindings.builder().build()` yields. */
  const EmptyBindings: TimelineBindings := TimelineBindings(Identity, None, [TransformStep(EmptyTransformBinding)])

  method BuildEmptyBindings() returns (r: TimelineBindings)
    ensures r == EmptyBindings
  {
    var b := new TimelineBindingsBuilder();
    r := b.Build();
  }

  class EffectClipBuilder {
    var timeline: Option<Timeline>
    var playback: Option<TimelinePlayback>
    var configurators: seq<Configurator>
    var rootBindings: Option<TimelineBindings>
    var layerBuilders: seq<LayerSpec>
    var players: Option<seq<Player>>
    /** Whether the audience list is one `addPlayer` may append to in place. */
    var playersGrowable: bool

    constructor ()
      ensures timeline == None && playback == None && configurators == [] && rootBindings == None
      ensures layerBuilders == [] && players == None
    {
      timeline, playback, configurators, rootBindings := None, None, [], None;
      layerBuilders, players, playersGrowable := [], None, false;
    }

    /** `timeline(t)`: a null argument clears the timeline. */
    method Timeline(t: Option<Timeline>)
      modifies this
      ensures timeline == t && playback == old(playback) && configurators == old(configurators)
      ensures rootBindings == old(rootBindings) && layerBuilders == old(layerBuilders) && players == old(players)
    {
      timeline := t;
    }

    method Playback(p: Option<TimelinePlayback>)
      modifies this
      ensures playback == p && timeline == old(timeline) && configurators == old(configurators)
      ensures rootBindings == old(rootBindings) && layerBuilders == old(layerBuilders) && players == old(players)
    {
      playback := p;
    }

    method ConfigurePlayback(c: Configurator)
      modifies this
      ensures configurators == old(configurators) + [c]
      ensures timeline == old(timeline) && playback == old(playback)
      ensures rootBindings == old(rootBindings) && layerBuilders == old(layerBuilders) && players == old(players)
    {
      configurators := configurators + [c];
    }

    /** `rootBindings(b)`: a null argument clears the root bindings, so that
      * `build` falls back to the empty binding set. */
    method RootBindings(b: Option<TimelineBindings>)
      modifies this
      ensures rootBindings == b
      ensures timeline == old(timeline) && playback == old(playback) && configurators == old(configurators)
      ensures layerBuilders == old(layerBuilders) && players == old(players)
    {
      rootBindings := b;
    }

    method Layer(spec: LayerSpec)
      modifies this
      ensures layerBuilders == old(layerBuilders) + [spec]
      ensures timeline == old(timeline) && playback == old(playback) && configurators == old(configurators)
      ensures rootBindings == old(rootBindings) && players == old(players)
    {
      layerBuilders := layerBuilders + [spec];
    }

    /** `players(list)`: the list is kept as given, so whether it can grow in
      * place depends on its class. */
    method Players(ps: Option<seq<Player>>, growable: bool)
      modifies this
      ensures players == ps && playersGrowable == growable
      ensures timeline == old(timeline) && playback == old(playback) && configurators == old(configurators)
      ensures rootBindings == old(rootBindings) && layerBuilders == old(layerBuilders)
    {
      players := ps;
      playersGrowable := growable;
    }

    /** `addPlayer`: an absent list starts empty; a list that cannot grow is
      * first copied into one that can; the player is appended. */
    method AddPlayer(p: Player)
      modifies this
      ensures players == Some(old(players).GetOr([]) + [p]) && playersGrowable
      ensures timeline == old(timeline) && playback == old(playback) && configurators == old(configurators)
      ensures rootBindings == old(rootBindings) && layerBuilders == old(layerBuilders)
    {
      if players.None? {
        players := Some([]);
        playersGrowable := true;
      } else if !playersGrowable {
        players := Some(players.value);
        playersGrowable := true;
      }
      players := Some(players.value + [p]);
    }

    /** What `build` can rely on about the objects it was given. */
    ghost predicate Ready()
      reads this
    {
      && (playback.Some? ==> playback.value.Valid() && EntriesWellFormed(playback.value.timeline.entries))
      && (timeline.Some? ==> EntriesWellFormed(timeline.value.entries))
      && (forall i :: 0 <= i < |configurators| ==> SettingsInRange(configurators[i]))
    }

    /** Whether `resolvePlayback` yields a playback: one was set explicitly,
      * or a timeline was set and every setter call of the configurators is
      * accepted. */
    ghost predicate PlaybackResolves()
      reads this
    {
      playback.Some? || (timeline.Some? && ApplySettings(DefaultConfig, Flatten(configurators)).Ok?)
    }

    /** `resolvePlayback`: a playback set explicitly wins; otherwise a
      * timeline is required and the configurators run in registration
      * order on a fresh playback builder. */
    method ResolvePlayback() returns (r: Result<TimelinePlayback>)
      requires Ready()
      ensures playback.Some? ==> r == Ok(playback.value)
      ensures playback.None? && timeline.None? ==> r == Err(NullPointer("timeline"))
      ensures playback.None? && timeline.Some? ==>
        var cfg := ApplySettings(DefaultConfig, Flatten(configurators));
        && (cfg.Err? <==> r.Err?)
        && (r.Err? ==> r.failure.IllegalArgument?)
        && (r.Ok? ==> && fresh(r.value) && r.value.timeline == timeline.value
                      && r.value.speed == cfg.value.speed && r.value.startDelay == cfg.value.startDelay
                      && r.value.infinite == cfg.value.infinite
                      && r.value.totalCycles == TotalCycles(cfg.value.infinite, cfg.value.extraLoops)
                      && r.value.loopDelay == cfg.value.loopDelay
                      && r.value.startedTick == -1 && !r.value.finished)
      ensures r.Ok? ==> r.value.Valid() && EntriesWellFormed(r.value.timeline.entries)
    {
      if playback.Some? {
        return Ok(playback.value);
      }
      if timeline.None? {
        return Err(NullPointer("timeline"));
      }
      var b := new PlaybackBuilder(timeline.value);
      var i := 0;
      while i < |configurators|
        invariant 0 <= i <= |configurators| && b.Valid()
        invariant ApplySettings(DefaultConfig, Flatten(configurators[..i])) == Ok(ConfigOf(b))
      {
        var failure := ApplyConfigurator(b, configurators[i], Flatten(configurators[..i]));
        FlattenSplit(configurators, i);
        if failure.Some? {
          ErrPersists(DefaultConfig, Flatten(configurators[..i]) + configurators[i], Flatten(configurators[i + 1..]));
          return Err(failure.value);
        }
        assert configurators[..i + 1][..i] == configurators[..i];
        i := i + 1;
      }
      assert configurators[..|configurators|] == configurators;
      var p := b.Build();
      return Ok(p);
    }

    /** `build`: at least one layer is required; root bindings default to an
      * empty binding set; the playback is resolved; then each layer is built
      * in registration order, a layer without an effect failing with a
      * null-pointer failure. */
    method Build() returns (r: Result<EffectClip>)
      requires Ready()
      requires EffectsReady(layerBuilders)
      ensures |layerBuilders| == 0 <==> r.Err? && r.failure.IllegalState?
      ensures r.Ok? ==> && fresh(r.value) && r.value.Valid()
                        && r.value.rootBindings == rootBindings.GetOr(EmptyBindings)
                        && r.value.players == players.GetOr([])
                        && r.value.startedAtTick == -1
                        && (playback.Some? ==> r.value.playback == playback.value)
                        && |r.value.layers| == |layerBuilders|
      ensures r.Ok? ==> forall i :: 0 <= i < |layerBuilders| ==> BuiltFrom(r.value.layers[i], layerBuilders[i])
      ensures |layerBuilders| > 0 && playback.Some? && (forall i :: 0 <= i < |layerBuilders| ==> layerBuilders[i].effect.Some?)
        ==> r.Ok?
      ensures |layerBuilders| > 0 && playback.None? && timeline.None? ==> r == Err(NullPointer("timeline"))
      ensures |layerBuilders| > 0 && playback.None? && timeline.Some? && ApplySettings(DefaultConfig, Flatten(configurators)).Err?
        ==> r.Err? && r.failure.IllegalArgument?
      ensures |layerBuilders| > 0 && PlaybackResolves() ==>
        && (r.Err? <==> exists i :: 0 <= i < |layerBuilders| && layerBuilders[i].effect.None?)
        && (r.Err? ==> r.failure == NullPointer("effect"))
      ensures r.Ok? <==> |layerBuilders| > 0 && PlaybackResolves() && forall i :: 0 <= i < |layerBuilders| ==> layerBuilders[i].effect.Some?
      ensures r.Ok? && playback.None? ==>
        var cfg := ApplySettings(DefaultConfig, Flatten(configurators));
        && timeline.Some? && cfg.Ok? && fresh(r.value.playback)
        && r.value.playback.timeline == timeline.value
        && r.value.playback.speed == cfg.value.speed && r.value.playback.startDelay == cfg.value.startDelay
        && r.value.playback.infinite == cfg.value.infinite
        && r.value.playback.totalCycles == TotalCycles(cfg.value.infinite, cfg.value.extraLoops)
        && r.value.playback.loopDelay == cfg.value.loopDelay
        && r.value.playback.startedTick == -1 && !r.value.playback.finished
    {
      if |layerBuilders| == 0 {
        return Err(IllegalState("EffectClip requires at least one layer"));
      }
      var root: TimelineBindings;
      if rootBindings.Some? {
        root := rootBindings.value;
      } else {
        root := BuildEmptyBindings();
      }
      var resolved := ResolvePlayback();
      if resolved.Err? {
        return Err(resolved.failure);
      }
      var built := BuildLayers(layerBuilders);
      if built.Err? {
        return Err(built.failure);
      }
      var layers := built.value;
      var clip := new EffectClip(resolved.value, root, layers, players);
      return Ok(clip);
    }
  }

  /** A configurator's setter calls on a playback builder: each one's outcome
    * is `ApplySetting` on the builder's configuration. */
  method ApplyOne(b: PlaybackBuilder, s: PlaybackSetting) returns (failure: Option<Failure>)
    requires b.Valid() && (s.SetLoopCount? ==> IsInt32(s.count))
    modifies b
    ensures b.Valid()
    ensures failure.None? ==> ApplySetting(old(ConfigOf(b)), s) == Ok(ConfigOf(b))
    ensures failure.Some? ==> ApplySetting(old(ConfigOf(b)), s).Err? && failure.value.IllegalArgument?
  {
    failure := None;
    match s {
      case SetSpeed(v) => failure := b.Speed(v);
      case SetDelaySeconds(d) => failure := b.DelaySeconds(d);
      case SetLoopCount(n) => failure := b.LoopCount(n);
      case SetLoopInfinite => b.LoopInfinite();
      case SetLoopDelaySeconds(d) => failure := b.LoopDelaySeconds(d);
    }
  }

  /** One configurator run on a builder that `done` configured: the builder
    * then holds the configuration of `done + settings`, or a setter refused
    * and so does `ApplySettings`. */
  method ApplyConfigurator(b: PlaybackBuilder, settings: Configurator, ghost done: seq<PlaybackSetting>)
    returns (failure: Option<Failure>)
    requires b.Valid() && SettingsInRange(settings)
    requires ApplySettings(DefaultConfig, done) == Ok(ConfigOf(b))
    modifies b
    ensures b.Valid()
    ensures failure.None? ==> ApplySettings(DefaultConfig, done + settings) == Ok(ConfigOf(b))
    ensures failure.Some? ==> ApplySettings(DefaultConfig, done + settings).Err? && failure.value.IllegalArgument?
  {
    assert done + settings[..0] == done;
    var j := 0;
    while j < |settings|
      invariant 0 <= j <= |settings| && b.Valid()
      invariant ApplySettings(DefaultConfig, done + settings[..j]) == Ok(ConfigOf(b))
    {
      var s := settings[j];
      assert settings[..j + 1] == settings[..j] + [s];
      assert (done + settings[..j]) + [s] == done + settings[..j + 1];
      ApplySettingsAppend(DefaultConfig, done + settings[..j], s);
      failure := ApplyOne(b, s);
      if failure.Some? {
        assert done + settings == (done + settings[..j + 1]) + settings[j + 1..];
        ErrPersists(DefaultConfig, done + settings[..j + 1], settings[j + 1..]);
        return;
      }
      j := j + 1;
    }
    assert settings[..|settings|] == settings;
    failure := None;
  }

  /** No two layer settings share an effect or an effect instance. */
  predicate DistinctEffects(specs: seq<LayerSpec>)
  {
    forall i, j :: 0 <= i < |specs| && 0 <= j < |specs| && i != j && specs[i].effect.Some? && specs[j].effect.Some? ==>
      specs[i].effect.value != specs[j].effect.value && specs[i].effect.value.instance != specs[j].effect.value.instance
  }

  /** What the layers' effects must be: distinct, with their fields matching
    * their schemas. */
  ghost predicate EffectsReady(specs: seq<LayerSpec>)
    reads set i | 0 <= i < |specs| && specs[i].effect.Some? :: specs[i].effect.value.instance
  {
    && DistinctEffects(specs)
    && forall i :: 0 <= i < |specs| && specs[i].effect.Some? ==> specs[i].effect.value.instance.Valid()
  }

  /** A layer as `build` makes it from its settings: the given effect,
    * bindings and audience, and two empty buffers. */
  ghost predicate BuiltFrom(l: Layer, spec: LayerSpec)
    reads l, l.bufferA, l.bufferB
  {
    && Some(l.effect) == spec.effect
    && l.bindings == spec.bindings.GetOr(EmptyBindings)
    && l.players == spec.players
    && l.bufferA.active == 0 && l.bufferB.active == 0
  }

  /** The layer loop of `build`: each layer in registration order, a missing
    * effect failing with a null-pointer failure. */
  method BuildLayers(specs: seq<LayerSpec>) returns (r: Result<seq<Layer>>)
    requires EffectsReady(specs)
    ensures r.Err? <==> exists i :: 0 <= i < |specs| && specs[i].effect.None?
    ensures r.Err? ==> r.failure == NullPointer("effect")
    ensures r.Ok? ==> |r.value| == |specs| && Disjoint(r.value) && AllValid(r.value)
    ensures r.Ok? ==> forall i :: 0 <= i < |specs| ==>
      fresh(r.value[i]) && fresh(r.value[i].bufferA) && fresh(r.value[i].bufferB) && BuiltFrom(r.value[i], specs[i])
  {
    var layers: seq<Layer> := [];
    var i := 0;
    while i < |specs|
      invariant 0 <= i <= |specs| && |layers| == i
      invariant forall j :: 0 <= j < i ==> specs[j].effect.Some?
      invariant forall j :: 0 <= j < i ==>
        fresh(layers[j]) && fresh(layers[j].bufferA) && fresh(layers[j].bufferB) && BuiltFrom(layers[j], specs[j])
      invariant AllValid(layers) && Disjoint(layers)
    {
      var spec := specs[i];
      if spec.effect.None? {
        return Err(NullPointer("effect"));
      }
      var bindings := if spec.bindings.Some? then spec.bindings.value else EmptyBindings;
      var layer := new Layer(spec.effect.value, bindings, spec.bufferCapacity, spec.players);
      forall j | 0 <= j < i
        ensures layers[j].Repr !! layer.Repr
      {
        assert layers[j].Valid();
        assert layers[j].effect != layer.effect && layers[j].effect.instance != layer.effect.instance;
      }
      DisjointAppend(layers, layer);
      layers := layers + [layer];
      i := i + 1;
    }
    r := Ok(layers);
  }

  /** A layer owning none of the objects of a disjoint list can join it. */
  lemma DisjointAppend(ls: seq<Layer>, l: Layer)
    requires Disjoint(ls)
    requires forall j :: 0 <= j < |ls| ==> ls[j].Repr !! l.Repr
    ensures Disjoint(ls + [l])
  {
    var ls' := ls + [l];
    forall i, j | 0 <= i < |ls'| && 0 <= j < |ls'| && i != j
      ensures ls'[i].Repr !! ls'[j].Repr
    {
      if i < |ls| && j < |ls| {
        assert ls'[i] == ls[i] && ls'[j] == ls[j];
      }
    }
  }

  /** Once a setting is refused, later settings are never applied. */
  lemma {:induction false} ErrPersists(c: PlaybackConfig, a: seq<PlaybackSetting>, b: seq<PlaybackSetting>)
    requires ApplySettings(c, a).Err?
    ensures ApplySettings(c, a + b) == ApplySettings(c, a)
    decreases |a|
  {
    assert (a + b)[0] == a[0] && (a + b)[1..] == a[1..] + b;
    match ApplySetting(c, a[0])
    case Err(f) =>
    case Ok(c') => ErrPersists(c', a[1..], b);
  }

  lemma {:induction false} FlattenAppend(a: seq<Configurator>, b: seq<Configurator>)
    ensures Flatten(a + b) == Flatten(a) + Flatten(b)
    decreases |b|
  {
    if |b| == 0 {
      assert a + b == a;
    } else {
      assert (a + b)[..|a + b| - 1] == a + b[..|b| - 1];
      FlattenAppend(a, b[..|b| - 1]);
    }
  }

  lemma FlattenSplit(cs: seq<Configurator>, i: int)
    requires 0 <= i < |cs|
    ensures Flatten(cs) == Flatten(cs[..i]) + cs[i] + Flatten(cs[i + 1..])
  {
    var a, b := cs[..i + 1], cs[i + 1..];
    assert cs == a + b;
    FlattenAppend(a, b);
    assert a[..|a| - 1] == cs[..i] && a[|a| - 1] == cs[i];
    assert Flatten(a) == Flatten(cs[..i]) + cs[i];
  }
}
