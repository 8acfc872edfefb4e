/**
 * The ray-traced particles sample: a fixed pool of particle slots that is
 * animated and refilled once per frame, the compaction of the live slots into
 * the particle mesh (quad indices, texture coordinates and one ParticleInfo
 * record per live particle) and the top-level instance list, whose
 * intersection instances are numbered in the same compaction order.
 */
module RtParticles {
  import opened Wrappers
  import opened CTypes
  import opened Seqs
  import Glfw

  const MAX_PARTICLES: nat := 1024
  const INDICES_PER_QUAD: nat := 6
  const VERTICES_PER_QUAD: nat := 4

  const INSTANCE_MASK_OPAQUE: nat := 1
  const INSTANCE_MASK_PARTICLE_GEOMETRY: nat := 2
  const INSTANCE_MASK_INTERSECTION_PARTICLE: nat := 4

  /** Seconds a particle lives after its emission. */
  const LIFETIME: real := 2.0
  const PARTICLES_PER_SECOND: real := 20.0
  const EMISSION_PERIOD: real := 1.0 / PARTICLES_PER_SECOND

  /** sizeof(ParticleInfo): four rows of a float3 and a 4-byte scalar. */
  const SIZEOF_PARTICLE_INFO: nat := 64

  // ---------------------------------------------------------------------
  // One particle slot
  // ---------------------------------------------------------------------

  datatype Vec3 = Vec3(x: real, y: real, z: real)

  function Add(a: Vec3, b: Vec3): Vec3 { Vec3(a.x + b.x, a.y + b.y, a.z + b.z) }

  function Scale(a: Vec3, k: real): Vec3 { Vec3(a.x * k, a.y * k, a.z * k) }

  /** Clamp to [0, 1]. */
  function Saturate(v: real): (r: real)
    ensures 0.0 <= r <= 1.0
    ensures 0.0 <= v <= 1.0 ==> r == v
    ensures v < 0.0 ==> r == 0.0
    ensures v > 1.0 ==> r == 1.0
  {
    if v < 0.0 then 0.0 else if v > 1.0 then 1.0 else v
  }

  datatype Particle = Particle(
    active: bool,
    position: Vec3,
    velocity: Vec3,
    color: Vec3,
    radius: real,
    age: real,
    opacity: real,
    rotation: real)

  /** A slot as the pool is created: inactive, white, zero radius, opaque. */
  const FREE_SLOT: Particle :=
    Particle(false, Vec3(0.0, 0.0, 0.0), Vec3(0.0, 0.0, 0.0), Vec3(1.0, 1.0, 1.0), 0.0, 0.0, 1.0, 0.0)

  /** The values random() hands to one emission, in call order. */
  datatype EmitDraws = EmitDraws(velocity: Vec3, radius: real, color: Vec3, rotation: real)

  predicate InUnit(v: real) { 0.0 <= v <= 1.0 }

  predicate InUnit3(v: Vec3) { InUnit(v.x) && InUnit(v.y) && InUnit(v.z) }

  /** random() returns rand()/RAND_MAX, a value in [0, 1]. */
  predicate ValidDraws(d: EmitDraws)
  {
    InUnit3(d.velocity) && InUnit(d.radius) && InUnit3(d.color) && InUnit(d.rotation)
  }

  /** ParticleEntity::Emit: the slot comes alive at the emitter. */
  function Emit(p: Particle, emitter: Vec3, d: EmitDraws): (q: Particle)
    ensures q.active && q.age == 0.0 && q.opacity == 1.0 && q.position == emitter
  {
    Particle(
      active := true,
      position := emitter,
      velocity := Vec3(d.velocity.x - 0.5, 1.0 + (d.velocity.y - 0.5), d.velocity.z - 0.5),
      color := Vec3(d.color.x * 0.5 + 0.1, d.color.y * 0.5 + 0.1, d.color.z * 0.5 + 0.1),
      radius := d.radius * 0.05 + 0.1,
      age := 0.0,
      opacity := 1.0,
      rotation := d.rotation * 6.28)
  }

  /**
   * With random values in [0, 1] a new particle has a radius in [0.1, 0.15]
   * (so ParticleInfo's 1/radius is defined), rises with vertical speed in
   * [0.5, 1.5], and has colour components in [0.1, 0.6].
   */
  lemma EmitRanges(p: Particle, emitter: Vec3, d: EmitDraws)
    requires ValidDraws(d)
    ensures var q := Emit(p, emitter, d);
      0.1 <= q.radius <= 0.15 && 0.5 <= q.velocity.y <= 1.5 &&
      -0.5 <= q.velocity.x <= 0.5 && -0.5 <= q.velocity.z <= 0.5 &&
      0.1 <= q.color.x <= 0.6 && 0.1 <= q.color.y <= 0.6 && 0.1 <= q.color.z <= 0.6
  {
  }

  /** ParticleEntity::Animate: one time step of a live particle. */
  function AnimateParticle(p: Particle, time: real): (q: Particle)
    ensures q.age == p.age + time
    ensures q.active <==> p.active && q.age <= LIFETIME
    ensures 0.0 <= q.opacity <= 1.0
    ensures 0.0 <= q.age <= LIFETIME ==> q.opacity == (LIFETIME - q.age) * 0.5
  {
    var age := p.age + time;
    p.(position := Add(p.position, Scale(p.velocity, time)),
       velocity := Vec3(p.velocity.x + time, p.velocity.y + time, p.velocity.z),
       age := age,
       radius := p.radius + 0.5 * time,
       opacity := Saturate((LIFETIME - age) * 0.5),
       active := p.active && !(age > LIFETIME))
  }

  /** What the pool's loop does to one slot: only live particles move. */
  function Step(p: Particle, time: real): Particle
  {
    if p.active then AnimateParticle(p, time) else p
  }

  /** A slot stepped through several frames. */
  function Steps(p: Particle, times: seq<real>): Particle
    decreases |times|
  {
    if |times| == 0 then p else Steps(Step(p, times[0]), times[1..])
  }

  function Sum(times: seq<real>): real
    decreases |times|
  {
    if |times| == 0 then 0.0 else times[0] + Sum(times[1..])
  }

  predicate NonNegative(times: seq<real>)
  {
    forall i :: 0 <= i < |times| ==> times[i] >= 0.0
  }

  lemma {:induction false} SumNonNegative(times: seq<real>)
    requires NonNegative(times)
    ensures Sum(times) >= 0.0
    decreases |times|
  {
    if |times| > 0 {
      assert NonNegative(times[1..]) by {
        forall i | 0 <= i < |times[1..]| ensures times[1..][i] >= 0.0 {
          assert times[1..][i] == times[i + 1];
        }
      }
      SumNonNegative(times[1..]);
    }
  }

  /**
   * Over frames of non-negative length, a slot that is within its lifetime
   * stays alive exactly while its age plus the elapsed time is within the
   * lifetime, and a live slot's age is its starting age plus the elapsed time.
   */
  lemma {:induction false} StepsLifetime(p: Particle, times: seq<real>)
    requires p.active ==> p.age <= LIFETIME
    requires NonNegative(times)
    ensures Steps(p, times).active <==> p.active && p.age + Sum(times) <= LIFETIME
    ensures Steps(p, times).active ==> Steps(p, times).age == p.age + Sum(times)
    decreases |times|
  {
    if |times| > 0 {
      var rest := times[1..];
      assert NonNegative(rest) by {
        forall i | 0 <= i < |rest| ensures rest[i] >= 0.0 {
          assert rest[i] == times[i + 1];
        }
      }
      SumNonNegative(rest);
      StepsLifetime(Step(p, times[0]), rest);
      if !p.active {
        InactiveStays(p, rest);
      }
    }
  }

  lemma {:induction false} InactiveStays(p: Particle, times: seq<real>)
    requires !p.active
    ensures Steps(p, times) == p
    decreases |times|
  {
    if |times| > 0 {
      InactiveStays(p, times[1..]);
    }
  }

  /** An emitted particle lives for exactly LIFETIME seconds of frames. */
  lemma EmittedLifetime(p: Particle, emitter: Vec3, d: EmitDraws, times: seq<real>)
    requires NonNegative(times)
    ensures Steps(Emit(p, emitter, d), times).active <==> Sum(times) <= LIFETIME
  {
    StepsLifetime(Emit(p, emitter, d), times);
  }

  // ---------------------------------------------------------------------
  // The pool, as sequences of slots
  // ---------------------------------------------------------------------

  /** Every slot stepped by one frame. */
  function AnimateAll(s: seq<Particle>, time: real): (r: seq<Particle>)
    ensures |r| == |s|
  {
    seq(|s|, i requires 0 <= i < |s| => Step(s[i], time))
  }

  /** The lowest-index free slot at or after `from`. */
  function FirstFreeFrom(s: seq<Particle>, from: nat): (r: Option<nat>)
    requires from <= |s|
    ensures r.Some? ==> from <= r.value < |s| && !s[r.value].active
    ensures r.Some? ==> forall j :: from <= j < r.value ==> s[j].active
    ensures r.None? ==> forall j :: from <= j < |s| ==> s[j].active
    decreases |s| - from
  {
    if from == |s| then None
    else if !s[from].active then Some(from)
    else FirstFreeFrom(s, from + 1)
  }

  function FirstFree(s: seq<Particle>): (r: Option<nat>)
  {
    FirstFreeFrom(s, 0)
  }

  /** The slot the pool fills this frame, if any. */
  function EmissionSlot(animated: seq<Particle>, due: bool): Option<nat>
  {
    if due then FirstFree(animated) else None
  }

  function Emitted(s: seq<Particle>, slot: Option<nat>, emitter: Vec3, d: EmitDraws): (r: seq<Particle>)
    requires slot.Some? ==> slot.value < |s|
    ensures |r| == |s|
  {
    match slot
    case None => s
    case Some(i) => s[i := Emit(s[i], emitter, d)]
  }

  /** Indices of the live slots below m, in slot order. */
  function ActiveSlots(s: seq<Particle>, m: nat): (r: seq<nat>)
    requires m <= |s|
    ensures |r| <= m
    ensures forall k :: 0 <= k < |r| ==> r[k] < m
  {
    if m == 0 then []
    else ActiveSlots(s, m - 1) + (if s[m - 1].active then [m - 1] else [])
  }

  /** ActiveSlots lists exactly the live slots below m, in increasing order. */
  lemma {:induction false} ActiveSlotsExact(s: seq<Particle>, m: nat)
    requires m <= |s|
    ensures forall k :: 0 <= k < |ActiveSlots(s, m)| ==> s[ActiveSlots(s, m)[k]].active
    ensures forall k, l :: 0 <= k < l < |ActiveSlots(s, m)| ==> ActiveSlots(s, m)[k] < ActiveSlots(s, m)[l]
    ensures forall i :: 0 <= i < m && s[i].active ==> i in ActiveSlots(s, m)
  {
    if m > 0 {
      ActiveSlotsExact(s, m - 1);
    }
  }

  function ActiveCount(s: seq<Particle>): nat
  {
    |ActiveSlots(s, |s|)|
  }

  /** Every slot below m is live exactly when the first m slots hold m live ones. */
  lemma {:induction false} FullIffAllActive(s: seq<Particle>, m: nat)
    requires m <= |s|
    ensures |ActiveSlots(s, m)| == m <==> forall i :: 0 <= i < m ==> s[i].active
  {
    if m > 0 {
      FullIffAllActive(s, m - 1);
    }
  }

  /** Bringing one free slot to life adds exactly one live slot. */
  lemma {:induction false} ActivateAddsOne(s: seq<Particle>, i: nat, p: Particle, m: nat)
    requires i < |s| && m <= |s| && !s[i].active && p.active
    ensures |ActiveSlots(s[i := p], m)| == |ActiveSlots(s, m)| + (if i < m then 1 else 0)
  {
    if m > 0 {
      ActivateAddsOne(s, i, p, m - 1);
    }
  }

  /**
   * One pool frame emits exactly when the emission is due and the animated
   * pool has a free slot, and then adds exactly one live particle.
   */
  lemma EmissionCount(animated: seq<Particle>, due: bool, emitter: Vec3, d: EmitDraws)
    ensures var slot := EmissionSlot(animated, due);
      (slot.Some? <==> due && ActiveCount(animated) < |animated|) &&
      ActiveCount(Emitted(animated, slot, emitter, d)) == ActiveCount(animated) + (if slot.Some? then 1 else 0)
  {
    var slot := EmissionSlot(animated, due);
    FullIffAllActive(animated, |animated|);
    if slot.Some? {
      ActivateAddsOne(animated, slot.value, Emit(animated[slot.value], emitter, d), |animated|);
    }
  }

  // ---------------------------------------------------------------------
  // Compaction into the particle mesh
  // ---------------------------------------------------------------------

  /** The index pattern of one quad, relative to its first vertex. */
  const QUAD_PATTERN: seq<nat> := [0, 1, 2, 0, 2, 3]

  datatype Texcoord = Texcoord(u: real, v: real)

  const QUAD_TEXCOORDS: seq<Texcoord> :=
    [Texcoord(0.0, 0.0), Texcoord(1.0, 0.0), Texcoord(1.0, 1.0), Texcoord(0.0, 1.0)]

  function QuadIndices(baseVertex: nat): (r: seq<nat>)
  {
    [baseVertex + 0, baseVertex + 1, baseVertex + 2, baseVertex + 0, baseVertex + 2, baseVertex + 3]
  }

  /** The index data of n compacted quads. */
  function CompactedIndices(n: nat): (r: seq<nat>)
    ensures |r| == 6 * n
  {
    if n == 0 then [] else CompactedIndices(n - 1) + QuadIndices(4 * (n - 1))
  }

  /** Quad k occupies entries 6k..6k+5 and holds 4k + {0,1,2,0,2,3}. */
  lemma {:induction false} CompactedIndicesAt(n: nat, k: nat, c: nat)
    requires k < n && c < INDICES_PER_QUAD
    ensures CompactedIndices(n)[INDICES_PER_QUAD * k + c] == VERTICES_PER_QUAD * k + QUAD_PATTERN[c]
  {
    if k < n - 1 {
      CompactedIndicesAt(n - 1, k, c);
    }
  }

  /** Every index of n quads refers to one of their 4n vertices. */
  lemma {:induction false} CompactedIndicesBelow(n: nat)
    ensures forall j :: 0 <= j < |CompactedIndices(n)| ==> CompactedIndices(n)[j] < VERTICES_PER_QUAD * n
  {
    if n > 0 {
      CompactedIndicesBelow(n - 1);
    }
  }

  /** The texture coordinates of n compacted quads. */
  function CompactedTexcoords(n: nat): (r: seq<Texcoord>)
    ensures |r| == 4 * n
  {
    if n == 0 then [] else CompactedTexcoords(n - 1) + QUAD_TEXCOORDS
  }

  /** Vertex 4k+c of the compacted quads carries the c-th corner coordinate. */
  lemma {:induction false} CompactedTexcoordsAt(n: nat, k: nat, c: nat)
    requires k < n && c < VERTICES_PER_QUAD
    ensures CompactedTexcoords(n)[VERTICES_PER_QUAD * k + c] == QUAD_TEXCOORDS[c]
  {
    if k < n - 1 {
      CompactedTexcoordsAt(n - 1, k, c);
    }
  }

  /** The fields of ParticleInfo taken from the particle itself. */
  datatype ParticleInfo = ParticleInfo(center: Vec3, rotation: real, colorFactor: Vec3, opacityFactor: real)

  const EMPTY_INFO: ParticleInfo := ParticleInfo(Vec3(0.0, 0.0, 0.0), 0.0, Vec3(0.0, 0.0, 0.0), 0.0)

  function InfoOf(p: Particle): ParticleInfo
  {
    ParticleInfo(p.position, p.rotation, p.color, p.opacity)
  }

  /** One ParticleInfo per live slot below m, in slot order. */
  function CompactedInfo(s: seq<Particle>, m: nat): (r: seq<ParticleInfo>)
    requires m <= |s|
    ensures |r| == |ActiveSlots(s, m)|
  {
    if m == 0 then []
    else CompactedInfo(s, m - 1) + (if s[m - 1].active then [InfoOf(s[m - 1])] else [])
  }

  /** The k-th ParticleInfo describes the k-th live slot. */
  lemma {:induction false} CompactedInfoAt(s: seq<Particle>, m: nat)
    requires m <= |s|
    ensures forall k :: 0 <= k < |ActiveSlots(s, m)| ==>
      CompactedInfo(s, m)[k] == InfoOf(s[ActiveSlots(s, m)[k]])
  {
    if m > 0 {
      CompactedInfoAt(s, m - 1);
    }
  }

  // ---------------------------------------------------------------------
  // Buffer layout of the particle mesh
  // ---------------------------------------------------------------------

  datatype ParticleMeshLayout = ParticleMeshLayout(
    positionOffset: nat,
    positionSize: nat,
    texcoordOffset: nat,
    texcoordSize: nat,
    vertexBufferSize: nat,
    indexBufferSize: nat,
    infoBufferSize: nat)

  /** CreateParticleMesh: the byte layout of the particle buffers. */
  function CreateParticleMesh(): (l: ParticleMeshLayout)
    ensures l.positionOffset == 0
    ensures l.texcoordOffset == l.positionOffset + l.positionSize
    ensures l.vertexBufferSize == l.texcoordOffset + l.texcoordSize
    ensures l.positionSize == MAX_PARTICLES * VERTICES_PER_QUAD * SIZEOF_FLOAT3 == 49152
    ensures l.texcoordSize == MAX_PARTICLES * VERTICES_PER_QUAD * SIZEOF_FLOAT2 == 32768
    ensures l.indexBufferSize == MAX_PARTICLES * INDICES_PER_QUAD * SIZEOF_UINT32 == 24576
    ensures l.infoBufferSize == MAX_PARTICLES * SIZEOF_PARTICLE_INFO
  {
    var positionSize := MAX_PARTICLES * VERTICES_PER_QUAD * SIZEOF_FLOAT3;
    var texcoordSize := MAX_PARTICLES * VERTICES_PER_QUAD * SIZEOF_FLOAT2;
    ParticleMeshLayout(
      positionOffset := 0,
      positionSize := positionSize,
      texcoordOffset := 0 + positionSize,
      texcoordSize := texcoordSize,
      vertexBufferSize := 0 + positionSize + texcoordSize,
      indexBufferSize := MAX_PARTICLES * INDICES_PER_QUAD * SIZEOF_UINT32,
      infoBufferSize := MAX_PARTICLES * SIZEOF_PARTICLE_INFO)
  }

  /**
   * The uploads of n <= 1024 compacted particles stay inside their buffers:
   * the indices in the index buffer, the positions before the texcoord
   * range, the texcoords inside the vertex buffer, the infos in theirs.
   */
  lemma GeometryUploadsFit(n: nat)
    requires n <= MAX_PARTICLES
    ensures var l := CreateParticleMesh();
      INDICES_PER_QUAD * n * SIZEOF_UINT32 <= l.indexBufferSize &&
      l.positionOffset + VERTICES_PER_QUAD * n * SIZEOF_FLOAT3 <= l.texcoordOffset &&
      l.texcoordOffset + VERTICES_PER_QUAD * n * SIZEOF_FLOAT2 <= l.vertexBufferSize &&
      n * SIZEOF_PARTICLE_INFO <= l.infoBufferSize
  {
  }

  // ---------------------------------------------------------------------
  // Acceleration structures
  // ---------------------------------------------------------------------

  datatype Blas = MeshBlas(mesh: nat) | IntersectionBlas

  datatype Transform = NodeTransform(node: nat) | ParticleBox(radius: real, center: Vec3)

  datatype InstanceDesc = InstanceDesc(blas: Blas, mask: nat, instanceID: nat, transform: Transform)

  /** A mesh instance of the scene graph: its mesh, instance index and node. */
  datatype MeshInstance = MeshInstance(mesh: nat, instanceIndex: nat, node: nat)

  function SceneInstanceDesc(inst: MeshInstance, particleMesh: nat): InstanceDesc
  {
    InstanceDesc(
      MeshBlas(inst.mesh),
      if inst.mesh == particleMesh then INSTANCE_MASK_PARTICLE_GEOMETRY else INSTANCE_MASK_OPAQUE,
      inst.instanceIndex,
      NodeTransform(inst.node))
  }

  function SceneInstanceDescs(scene: seq<MeshInstance>, particleMesh: nat): (r: seq<InstanceDesc>)
    ensures |r| == |scene|
  {
    seq(|scene|, i requires 0 <= i < |scene| => SceneInstanceDesc(scene[i], particleMesh))
  }

  function ParticleInstance(p: Particle, id: nat): InstanceDesc
  {
    InstanceDesc(IntersectionBlas, INSTANCE_MASK_INTERSECTION_PARTICLE, id, ParticleBox(p.radius, p.position))
  }

  /** One intersection instance per live slot below m, numbered from 0. */
  function ParticleInstances(s: seq<Particle>, m: nat): (r: seq<InstanceDesc>)
    requires m <= |s|
    ensures |r| == |ActiveSlots(s, m)|
  {
    if m == 0 then []
    else
      var id := |ActiveSlots(s, m - 1)|;
      ParticleInstances(s, m - 1) + (if s[m - 1].active then [ParticleInstance(s[m - 1], id)] else [])
  }

  /**
   * The k-th intersection instance has instanceID k and boxes the k-th live
   * slot, which is also the slot ParticleInfo k describes: the shaders can
   * index the info buffer with the instance ID.
   */
  lemma {:induction false} ParticleInstancesMatchInfo(s: seq<Particle>, m: nat)
    requires m <= |s|
    ensures forall k :: 0 <= k < |ActiveSlots(s, m)| ==>
      var p := s[ActiveSlots(s, m)[k]];
      ParticleInstances(s, m)[k] == ParticleInstance(p, k) &&
      CompactedInfo(s, m)[k].center == p.position
  {
    if m > 0 {
      ParticleInstancesMatchInfo(s, m - 1);
      CompactedInfoAt(s, m);
    }
  }

  /** topLevelMaxInstances: scene instances plus one per particle slot, as uint32. */
  function TlasCapacity(sceneInstances: nat): nat
  {
    U32(U32(sceneInstances) + MAX_PARTICLES)
  }

  /** Without uint32 wrap-around the instance list always fits the TLAS. */
  lemma TlasCapacitySuffices(s: seq<Particle>, scene: seq<MeshInstance>, particleMesh: nat)
    requires |s| == MAX_PARTICLES
    requires |scene| + MAX_PARTICLES < U32_LIMIT
    ensures |SceneInstanceDescs(scene, particleMesh) + ParticleInstances(s, |s|)| <= TlasCapacity(|scene|)
  {
  }

  /** Each scene mesh gets a BLAS; all but the dynamic particle mesh are built at once. */
  datatype BlasState = BlasState(mesh: nat, built: bool)

  // ---------------------------------------------------------------------
  // The sample object
  // ---------------------------------------------------------------------

  class RayTracedParticles {
    var particles: array<Particle>
    var enableAnimations: bool
    var wallclockTime: real
    var lastEmitTime: real

    var indexData: array<nat>
    var texcoordData: array<Texcoord>
    var particleInfoData: array<ParticleInfo>
    var numIndices: nat
    var numVertices: nat

    ghost predicate Valid()
      reads this
    {
      particles.Length == MAX_PARTICLES &&
      indexData.Length == MAX_PARTICLES * INDICES_PER_QUAD &&
      texcoordData.Length == MAX_PARTICLES * VERTICES_PER_QUAD &&
      particleInfoData.Length == MAX_PARTICLES
    }

    /** Init and CreateParticleMesh: 1024 free slots and full-size mesh data. */
    constructor ()
      ensures Valid()
      ensures forall i :: 0 <= i < particles.Length ==> particles[i] == FREE_SLOT
      ensures enableAnimations && wallclockTime == 0.0 && lastEmitTime == 0.0
      ensures numIndices == MAX_PARTICLES * INDICES_PER_QUAD && numVertices == MAX_PARTICLES * VERTICES_PER_QUAD
    {
      particles := new Particle[MAX_PARTICLES](_ => FREE_SLOT);
      enableAnimations := true;
      wallclockTime := 0.0;
      lastEmitTime := 0.0;
      indexData := new nat[MAX_PARTICLES * INDICES_PER_QUAD](_ => 0);
      texcoordData := new Texcoord[MAX_PARTICLES * VERTICES_PER_QUAD](_ => Texcoord(0.0, 0.0));
      particleInfoData := new ParticleInfo[MAX_PARTICLES](_ => EMPTY_INFO);
      numIndices := MAX_PARTICLES * INDICES_PER_QUAD;
      numVertices := MAX_PARTICLES * VERTICES_PER_QUAD;
    }

    /** Space on press toggles the animation; every key is reported as handled. */
    method KeyboardUpdate(key: int, action: int) returns (handled: bool)
      modifies this`enableAnimations
      ensures handled
      ensures enableAnimations == (if key == Glfw.KEY_SPACE && action == Glfw.PRESS
                                   then !old(enableAnimations) else old(enableAnimations))
    {
      if key == Glfw.KEY_SPACE && action == Glfw.PRESS {
        enableAnimations := !enableAnimations;
        return true;
      }
      return true;
    }

    /**
     * One frame of the pool: every live particle is animated, and when the
     * emission period has passed the lowest free slot of the animated pool
     * (a particle that died this frame included) receives a new particle.
     */
    method Animate(elapsed: real, sceneLoaded: bool, emitter: Vec3, d: EmitDraws)
      requires Valid()
      modifies particles, this`wallclockTime, this`lastEmitTime
      ensures Valid()
      ensures !(sceneLoaded && enableAnimations) ==>
        particles[..] == old(particles[..]) &&
        wallclockTime == old(wallclockTime) && lastEmitTime == old(lastEmitTime)
      ensures sceneLoaded && enableAnimations ==>
        var animated := AnimateAll(old(particles[..]), elapsed);
        var slot := EmissionSlot(animated, wallclockTime - old(lastEmitTime) > EMISSION_PERIOD);
        wallclockTime == old(wallclockTime) + elapsed &&
        particles[..] == Emitted(animated, slot, emitter, d) &&
        lastEmitTime == (if slot.Some? then wallclockTime else old(lastEmitTime))
    {
      if sceneLoaded && enableAnimations {
        wallclockTime := wallclockTime + elapsed;
        ghost var before := particles[..];
        var firstEmpty := -1;
        var i := 0;
        while i < particles.Length
          invariant 0 <= i <= particles.Length
          invariant wallclockTime == old(wallclockTime) + elapsed && lastEmitTime == old(lastEmitTime)
          invariant forall j :: 0 <= j < i ==> particles[j] == Step(before[j], elapsed)
          invariant forall j :: i <= j < particles.Length ==> particles[j] == before[j]
          invariant -1 <= firstEmpty < i
          invariant firstEmpty >= 0 ==> !particles[firstEmpty].active
          invariant forall j :: 0 <= j < i && (firstEmpty < 0 || j < firstEmpty) ==> particles[j].active
        {
          if particles[i].active {
            particles[i] := AnimateParticle(particles[i], elapsed);
          }
          if !particles[i].active {
            if firstEmpty < 0 {
              firstEmpty := i;
            }
          }
          i := i + 1;
        }
        ghost var animated := AnimateAll(before, elapsed);
        assert particles[..] == animated;
        FirstFreeUnique(animated, firstEmpty);
        if wallclockTime - lastEmitTime > EMISSION_PERIOD && firstEmpty >= 0 {
          particles[firstEmpty] := Emit(particles[firstEmpty], emitter, d);
          lastEmitTime := wallclockTime;
        }
      }
    }

    /** The indices of quad k: six entries at 6k, starting at vertex 4k. */
    method WriteQuadIndices(quad: nat)
      requires Valid() && quad < MAX_PARTICLES
      modifies indexData
      ensures indexData[..] ==
        old(indexData[..])[..6 * quad] + QuadIndices(4 * quad) + old(indexData[..])[6 * quad + 6..]
    {
      var baseIndex := quad * INDICES_PER_QUAD;
      var baseVertex := quad * VERTICES_PER_QUAD;
      indexData[baseIndex + 0] := baseVertex + 0;
      indexData[baseIndex + 1] := baseVertex + 1;
      indexData[baseIndex + 2] := baseVertex + 2;
      indexData[baseIndex + 3] := baseVertex + 0;
      indexData[baseIndex + 4] := baseVertex + 2;
      indexData[baseIndex + 5] := baseVertex + 3;
    }

    /** The texture coordinates of quad k's four vertices, at 4k. */
    method WriteQuadTexcoords(quad: nat)
      requires Valid() && quad < MAX_PARTICLES
      modifies texcoordData
      ensures texcoordData[..] ==
        old(texcoordData[..])[..4 * quad] + QUAD_TEXCOORDS + old(texcoordData[..])[4 * quad + 4..]
    {
      var baseVertex := quad * VERTICES_PER_QUAD;
      texcoordData[baseVertex + 0] := Texcoord(0.0, 0.0);
      texcoordData[baseVertex + 1] := Texcoord(1.0, 0.0);
      texcoordData[baseVertex + 2] := Texcoord(1.0, 1.0);
      texcoordData[baseVertex + 3] := Texcoord(0.0, 1.0);
    }

    /** ParticleInfo k. */
    method WriteInfo(k: nat, p: Particle)
      requires Valid() && k < MAX_PARTICLES
      modifies particleInfoData
      ensures particleInfoData[..] ==
        old(particleInfoData[..])[..k] + [InfoOf(p)] + old(particleInfoData[..])[k + 1..]
    {
      particleInfoData[k] := InfoOf(p);
    }

    /**
     * The state of BuildParticleGeometry's loop after the slots below index:
     * the front of each array holds the compacted quads and infos of the n
     * live slots seen so far, and the rest of it still holds what it held.
     */
    ghost predicate Compacted(s: seq<Particle>, index: nat, n: nat,
                              indices0: seq<nat>, texcoords0: seq<Texcoord>, infos0: seq<ParticleInfo>)
      reads this, indexData, texcoordData, particleInfoData
    {
      Valid() && index <= |s| == MAX_PARTICLES && n == |ActiveSlots(s, index)| &&
      |indices0| == indexData.Length && |texcoords0| == texcoordData.Length &&
      |infos0| == particleInfoData.Length &&
      indexData[..] == Overlay(CompactedIndices(n), indices0) &&
      texcoordData[..] == Overlay(CompactedTexcoords(n), texcoords0) &&
      particleInfoData[..] == Overlay(CompactedInfo(s, index), infos0)
    }

    /** A free slot adds nothing to the compacted arrays. */
    lemma SkipInactive(s: seq<Particle>, index: nat, n: nat,
                       indices0: seq<nat>, texcoords0: seq<Texcoord>, infos0: seq<ParticleInfo>)
      requires Compacted(s, index, n, indices0, texcoords0, infos0)
      requires index < |s| && !s[index].active
      ensures Compacted(s, index + 1, n, indices0, texcoords0, infos0)
    {
      assert ActiveSlots(s, index + 1) == ActiveSlots(s, index);
      assert CompactedInfo(s, index + 1) == CompactedInfo(s, index);
    }

    /**
     * The loop body of BuildParticleGeometry for a live slot: its quad and
     * info record extend the already compacted front of each array.
     */
    method AppendParticle(ghost s: seq<Particle>, index: nat, n: nat,
                          ghost indices0: seq<nat>, ghost texcoords0: seq<Texcoord>, ghost infos0: seq<ParticleInfo>)
      requires Compacted(s, index, n, indices0, texcoords0, infos0)
      requires s == particles[..] && index < |s| && s[index].active
      modifies indexData, texcoordData, particleInfoData
      ensures Compacted(s, index + 1, n + 1, indices0, texcoords0, infos0)
    {
      assert |ActiveSlots(s, index + 1)| == n + 1;
      WriteQuadIndices(n);
      SpliceAppend(CompactedIndices(n), QuadIndices(4 * n), indices0);
      WriteQuadTexcoords(n);
      SpliceAppend(CompactedTexcoords(n), QUAD_TEXCOORDS, texcoords0);
      WriteInfo(n, particles[index]);
      SpliceAppend(CompactedInfo(s, index), [InfoOf(s[index])], infos0);
    }

    /**
     * The loop of BuildParticleGeometry: the live slots, in slot order, become
     * quads 0..n-1 of the particle mesh (6 indices and 4 vertices each) and
     * ParticleInfo records 0..n-1, where n is the number of live slots.
     * Entries past the n quads keep their previous contents.
     */
    method CompactParticles() returns (numParticles: nat)
      requires Valid()
      modifies indexData, texcoordData, particleInfoData
      ensures numParticles == |ActiveSlots(particles[..], particles.Length)|
      ensures indexData[..] == Overlay(CompactedIndices(numParticles), old(indexData[..]))
      ensures texcoordData[..] == Overlay(CompactedTexcoords(numParticles), old(texcoordData[..]))
      ensures particleInfoData[..] == Overlay(CompactedInfo(particles[..], particles.Length), old(particleInfoData[..]))
    {
      ghost var s := particles[..];
      ghost var indices0 := indexData[..];
      ghost var texcoords0 := texcoordData[..];
      ghost var infos0 := particleInfoData[..];
      numParticles := 0;
      var index := 0;
      while index < particles.Length
        invariant index <= particles.Length
        invariant Compacted(s, index, numParticles, indices0, texcoords0, infos0)
      {
        assert s[index] == particles[index];
        if particles[index].active {
          AppendParticle(s, index, numParticles, indices0, texcoords0, infos0);
          numParticles := numParticles + 1;
        } else {
          SkipInactive(s, index, numParticles, indices0, texcoords0, infos0);
        }
        index := index + 1;
      }
    }

    /**
     * BuildParticleGeometry: the compacted live particles are all the mesh
     * draws, 6n indices over 4n vertices.
     */
    method BuildParticleGeometry()
      requires Valid()
      modifies indexData, texcoordData, particleInfoData, this`numIndices, this`numVertices
      ensures Valid()
      ensures var n := |ActiveSlots(particles[..], particles.Length)|;
        numIndices == INDICES_PER_QUAD * n && numVertices == VERTICES_PER_QUAD * n &&
        indexData[..] == Overlay(CompactedIndices(n), old(indexData[..])) &&
        texcoordData[..] == Overlay(CompactedTexcoords(n), old(texcoordData[..])) &&
        particleInfoData[..] == Overlay(CompactedInfo(particles[..], particles.Length), old(particleInfoData[..]))
    {
      var numParticles := CompactParticles();
      numIndices := numParticles * INDICES_PER_QUAD;
      numVertices := numParticles * VERTICES_PER_QUAD;
    }

    /**
     * CreateAccelStructs: a BLAS per scene mesh, built at once unless it is
     * the particle mesh, and a TLAS sized for the scene instances plus one
     * intersection instance per particle slot.
     */
    method CreateAccelStructs(meshes: seq<nat>, particleMesh: nat, sceneInstances: nat)
      returns (blas: seq<BlasState>, capacity: nat)
      ensures |blas| == |meshes|
      ensures forall i :: 0 <= i < |meshes| ==> blas[i].mesh == meshes[i]
      ensures forall i :: 0 <= i < |meshes| ==> (blas[i].built <==> meshes[i] != particleMesh)
      ensures capacity == TlasCapacity(sceneInstances)
      ensures sceneInstances + MAX_PARTICLES < U32_LIMIT ==> capacity == sceneInstances + MAX_PARTICLES
    {
      blas := [];
      var i := 0;
      while i < |meshes|
        invariant 0 <= i <= |meshes| && |blas| == i
        invariant forall j :: 0 <= j < i ==> blas[j].mesh == meshes[j]
        invariant forall j :: 0 <= j < i ==> (blas[j].built <==> meshes[j] != particleMesh)
      {
        blas := blas + [BlasState(meshes[i], meshes[i] != particleMesh)];
        i := i + 1;
      }
      capacity := U32(U32(sceneInstances) + MAX_PARTICLES);
    }

    /**
     * BuildTLAS: the scene's mesh instances in order, then one intersection
     * instance per live slot, numbered 0, 1, 2, ... in slot order.
     */
    method BuildTLAS(scene: seq<MeshInstance>, particleMesh: nat) returns (instances: seq<InstanceDesc>)
      requires Valid()
      ensures instances == SceneInstanceDescs(scene, particleMesh) + ParticleInstances(particles[..], particles.Length)
    {
      instances := [];
      var i := 0;
      while i < |scene|
        invariant 0 <= i <= |scene|
        invariant instances == SceneInstanceDescs(scene[..i], particleMesh)
      {
        instances := instances + [SceneInstanceDesc(scene[i], particleMesh)];
        i := i + 1;
        assert scene[..i] == scene[..i - 1] + [scene[i - 1]];
      }
      assert scene[..i] == scene;
      ghost var sceneDescs := instances;
      ghost var s := particles[..];
      var particleIndex: nat := 0;
      var index := 0;
      while index < particles.Length
        invariant 0 <= index <= particles.Length
        invariant particleIndex == |ActiveSlots(s, index)|
        invariant instances == sceneDescs + ParticleInstances(s, index)
      {
        if particles[index].active {
          instances := instances + [ParticleInstance(particles[index], particleIndex)];
          particleIndex := particleIndex + 1;
        }
        index := index + 1;
      }
    }
  }

  /** The index the pool's loop settles on is the lowest free slot, or -1. */
  lemma FirstFreeUnique(s: seq<Particle>, firstEmpty: int)
    requires -1 <= firstEmpty < |s|
    requires firstEmpty >= 0 ==> !s[firstEmpty].active
    requires forall j :: 0 <= j < |s| && (firstEmpty < 0 || j < firstEmpty) ==> s[j].active
    ensures firstEmpty < 0 ==> FirstFree(s).None?
    ensures firstEmpty >= 0 ==> FirstFree(s) == Some(firstEmpty)
  {
  }
}
