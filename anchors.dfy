/** Transform providers: the anchors an effect follows. A base provider reports
  * the current transform of something in the world (or null once that thing is
  * gone); a blended provider mixes two providers at a fixed progress and is
  * re-evaluated on every query. */
module Anchors {
  import opened Wrappers
  import opened Geometry

  /** A base provider is known by an identifier; what it reports is read from
    * the world at query time. */
  datatype Provider =
    | Fixed(id: nat)
    | Blend(from: Provider, to: Provider, progress: real)

  /** The current transform of every base provider (None: the target is gone). */
  type World = nat -> Option<Transform>

  function Clamp01(p: real): real
  {
    if p > 1.0 then 1.0 else if p < 0.0 then 0.0 else p
  }

  /** The `InterpolatedTransformProvider` constructor: progress is clamped to
    * [0, 1]. */
  function MakeBlend(from: Provider, to: Provider, progress: real): (r: Provider)
    ensures r.Blend? && r.from == from && r.to == to
    ensures 0.0 <= r.progress <= 1.0
    ensures 0.0 <= progress <= 1.0 ==> r.progress == progress
  {
    Blend(from, to, Clamp01(progress))
  }

  /** `getTransform()`: both sides are queried; a missing side snaps to the
    * other; otherwise position and scale are interpolated linearly and the
    * rotation spherically. */
  function Resolve(p: Provider, world: World, trig: Trig): Option<Transform>
  {
    match p
    case Fixed(id) => world(id)
    case Blend(from, to, t) =>
      var a := Resolve(from, world, trig);
      var b := Resolve(to, world, trig);
      if a.None? && b.None? then None
      else if a.None? then b
      else if b.None? then a
      else Some(Transform(Lerp(a.value.position, b.value.position, t),
                          trig.slerp(a.value.rotation, b.value.rotation, t),
                          Lerp(a.value.scale, b.value.scale, t)))
  }

  /** A blend is absent only when both sides are, and snaps to the side that is
    * present. */
  lemma BlendSnaps(from: Provider, to: Provider, t: real, world: World, trig: Trig)
    ensures var r := Resolve(Blend(from, to, t), world, trig);
      && (r.None? <==> Resolve(from, world, trig).None? && Resolve(to, world, trig).None?)
      && (Resolve(from, world, trig).None? ==> r == Resolve(to, world, trig))
      && (Resolve(to, world, trig).None? ==> r == Resolve(from, world, trig))
  {
  }

  lemma LerpEnds(a: Vec3, b: Vec3)
    ensures Lerp(a, b, 0.0) == a && Lerp(a, b, 1.0) == b
  {
  }

  /** With both sides present, the blended position and scale lie on the
    * segment between the two sides, at the blend's progress. */
  lemma BlendInterpolates(from: Provider, to: Provider, t: real, world: World, trig: Trig)
    requires Resolve(from, world, trig).Some? && Resolve(to, world, trig).Some?
    ensures var a, b := Resolve(from, world, trig).value, Resolve(to, world, trig).value;
      var r := Resolve(Blend(from, to, t), world, trig);
      && r.Some?
      && r.value.position == a.position.Add(b.position.Sub(a.position).Scale(t))
      && r.value.scale == a.scale.Add(b.scale.Sub(a.scale).Scale(t))
      && r.value.rotation == trig.slerp(a.rotation, b.rotation, t)
  {
  }

  /** A blend at progress 0 sits on its first side's position and scale, at
    * progress 1 on its second side's. */
  lemma BlendEndPoints(from: Provider, to: Provider, world: World, trig: Trig)
    requires Resolve(from, world, trig).Some? && Resolve(to, world, trig).Some?
    ensures Resolve(Blend(from, to, 0.0), world, trig).value.position == Resolve(from, world, trig).value.position
    ensures Resolve(Blend(from, to, 1.0), world, trig).value.position == Resolve(to, world, trig).value.position
    ensures Resolve(Blend(from, to, 0.0), world, trig).value.scale == Resolve(from, world, trig).value.scale
    ensures Resolve(Blend(from, to, 1.0), world, trig).value.scale == Resolve(to, world, trig).value.scale
  {
    var a, b := Resolve(from, world, trig).value, Resolve(to, world, trig).value;
    LerpEnds(a.position, b.position);
    LerpEnds(a.scale, b.scale);
  }

  /** A provider holds no transform of its own: what it reports is fixed by the
    * world at the moment it is queried, however deeply blends are nested. */
  lemma {:induction false} ResolveDependsOnlyOnWorld(p: Provider, w1: World, w2: World, trig: Trig)
    requires forall id :: w1(id) == w2(id)
    ensures Resolve(p, w1, trig) == Resolve(p, w2, trig)
  {
    match p
    case Fixed(id) =>
    case Blend(from, to, t) =>
      ResolveDependsOnlyOnWorld(from, w1, w2, trig);
      ResolveDependsOnlyOnWorld(to, w1, w2, trig);
  }
}
