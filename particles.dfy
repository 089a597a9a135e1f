/** `PooledParticleBuffer`: a pool of reusable particle vertices, of which a
  * prefix is active. Adding a particle overwrites the next pooled vertex
  * (growing the pool only when every vertex is in use); clearing only resets
  * the count. */
module Particles {
  import opened Wrappers
  import opened Geometry
  import opened Values

  /** A particle type of the rendering library, known by an identifier. */
  type ParticleType = nat

  /** `ParticleVertex`: position, type, optional velocity and optional extra
    * data. */
  datatype Vertex = Vertex(pos: Vec3, particleType: Option<ParticleType>, vel: Option<Vec3>, data: Option<Value>)

  /** A vertex as the pool allocates it: at the origin, with nothing set. */
  const BlankVertex: Vertex := Vertex(Zero, None, None, None)

  /** The smallest pool the constructor allocates. */
  const MinPool: int := 16

  function Max(a: int, b: int): int { if a >= b then a else b }

  /** A sequence of `n` blank vertices. */
  function Blanks(n: nat): (r: seq<Vertex>)
    ensures |r| == n && forall i :: 0 <= i < n ==> r[i] == BlankVertex
  {
    seq(n, _ => BlankVertex)
  }

  class PooledParticleBuffer {
    var pool: seq<Vertex>
    var active: int

    /** The active count never exceeds the pool, which never shrinks below
      * its initial minimum. */
    ghost predicate Valid()
      reads this
    {
      0 <= active <= |pool| && |pool| >= MinPool
    }

    /** `size()`. */
    function Size(): int
      reads this
    {
      active
    }

    /** `view()`: the active vertices, in the order they were added. */
    function View(): seq<Vertex>
      reads this
      requires Valid()
    {
      pool[..active]
    }

    /** Preallocates `max(16, initialCapacity)` blank vertices; nothing is
      * active. */
    constructor (initialCapacity: int)
      ensures Valid()
      ensures |pool| == Max(MinPool, initialCapacity) && pool == Blanks(|pool|)
      ensures active == 0
    {
      var n := Max(MinPool, initialCapacity);
      var p: seq<Vertex> := [];
      var i := 0;
      while i < n
        invariant 0 <= i <= n && p == Blanks(i)
      {
        p := p + [BlankVertex];
        i := i + 1;
      }
      pool := p;
      active := 0;
    }

    /** `clear()`: the pool is kept as it is. */
    method Clear()
      requires Valid()
      modifies this
      ensures Valid() && active == 0 && pool == old(pool)
    {
      active := 0;
    }

    /** `getNext()`: the index of the next vertex, which becomes active; the
      * pool grows by one blank vertex only when it is full. */
    method GetNext() returns (index: int)
      requires Valid()
      modifies this
      ensures Valid()
      ensures index == old(active) && active == old(active) + 1
      ensures old(active) < |old(pool)| ==> pool == old(pool)
      ensures old(active) == |old(pool)| ==> pool == old(pool) + [BlankVertex]
    {
      if active >= |pool| {
        pool := pool + [BlankVertex];
      }
      index := active;
      active := active + 1;
    }

    /** `add(pos, type)`: the position is copied, the type stored, velocity
      * and data cleared. */
    method Add(pos: Vec3, particleType: ParticleType)
      requires Valid()
      modifies this
      ensures Valid()
      ensures active == old(active) + 1
      ensures View() == old(View()) + [Vertex(pos, Some(particleType), None, None)]
      ensures |pool| == Max(|old(pool)|, old(active) + 1)
      ensures old(active) < |old(pool)| ==> pool == old(pool)[old(active) := Vertex(pos, Some(particleType), None, None)]
      ensures old(active) == |old(pool)| ==> pool == old(pool) + [Vertex(pos, Some(particleType), None, None)]
    {
      var i := GetNext();
      pool := pool[i := Vertex(pos, Some(particleType), None, None)];
    }

    /** `add(pos, type, velocity)`: as `Add`, with the velocity stored. */
    method AddWithVelocity(pos: Vec3, particleType: ParticleType, velocity: Option<Vec3>)
      requires Valid()
      modifies this
      ensures Valid()
      ensures active == old(active) + 1
      ensures View() == old(View()) + [Vertex(pos, Some(particleType), velocity, None)]
      ensures |pool| == Max(|old(pool)|, old(active) + 1)
      ensures old(active) < |old(pool)| ==> pool == old(pool)[old(active) := Vertex(pos, Some(particleType), velocity, None)]
      ensures old(active) == |old(pool)| ==> pool == old(pool) + [Vertex(pos, Some(particleType), velocity, None)]
    {
      var i := GetNext();
      pool := pool[i := Vertex(pos, Some(particleType), velocity, None)];
    }

    /** `ensureCapacity(n)`: blank vertices are appended until the pool holds
      * at least n; the active vertices and the count are untouched. */
    method EnsureCapacity(minCapacity: int)
      requires Valid()
      modifies this
      ensures Valid() && active == old(active)
      ensures |pool| == Max(|old(pool)|, minCapacity)
      ensures pool == old(pool) + Blanks(|pool| - |old(pool)|)
    {
      ghost var start := pool;
      while |pool| < minCapacity
        invariant Valid() && active == old(active)
        invariant |start| <= |pool| <= Max(|start|, minCapacity)
        invariant pool == start + Blanks(|pool| - |start|)
        decreases minCapacity - |pool|
      {
        pool := pool + [BlankVertex];
      }
    }
  }
}
