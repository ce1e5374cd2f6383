/**
 * The instanced particle field (src/components/3d/FloatingParticles.tsx): a fixed
 * number of particle records, each advancing its own phase `t` every frame, and an
 * instanced mesh whose per-instance transforms are rewritten from those records,
 * with particles near the pointer pushed away from it.
 */
module FloatingParticles {
  import opened Trig
  import opened Scene

  /** Number of particle records and of mesh instances. */
  const COUNT: nat := 1000
  /** Distance from the pointer below which a particle is pushed away. */
  const REPULSION_RADIUS: real := 4.0
  /** Largest displacement the repulsion can cause on one axis. */
  const REPULSION_STRENGTH: real := 2.0

  /** One particle record; only `t` ever changes after construction. */
  datatype Particle = Particle(
    t: real, factor: real, speed: real,
    xFactor: real, yFactor: real, zFactor: real,
    mx: real, my: real)

  /** The six `Math.random()` results drawn for one record, in drawing order. */
  datatype Draw = Draw(t: real, factor: real, speed: real, x: real, y: real, z: real)

  /** What one instance's matrix is composed from. */
  datatype Transform = Transform(position: Vec3, scale: Vec3, rotation: Vec3)

  /** The normalised pointer position, each axis roughly in [-1, 1]. */
  datatype Pointer = Pointer(x: real, y: real)

  predicate InUnit(r: real) { 0.0 <= r < 1.0 }

  predicate ValidDraw(d: Draw) {
    InUnit(d.t) && InUnit(d.factor) && InUnit(d.speed) && InUnit(d.x) && InUnit(d.y) && InUnit(d.z)
  }

  /** The ranges a freshly built record lies in. */
  predicate Spawned(p: Particle) {
    && 0.0 <= p.t < 100.0
    && 20.0 <= p.factor < 120.0
    && 0.01 <= p.speed < 0.015
    && -50.0 <= p.xFactor < 50.0
    && -50.0 <= p.yFactor < 50.0
    && -50.0 <= p.zFactor < 50.0
    && p.mx == 0.0 && p.my == 0.0
  }

  /** One iteration of the construction loop. */
  function Spawn(d: Draw): (p: Particle)
    requires ValidDraw(d)
    ensures Spawned(p)
  {
    Particle(
      d.t * 100.0, 20.0 + d.factor * 100.0, 0.01 + d.speed / 200.0,
      -50.0 + d.x * 100.0, -50.0 + d.y * 100.0, -50.0 + d.z * 100.0,
      0.0, 0.0)
  }

  /** The in-place phase update `particle.t += speed / 2`. */
  function Advance(p: Particle): (q: Particle)
    ensures q.(t := p.t) == p
    ensures p.speed > 0.0 ==> q.t > p.t
  {
    p.(t := p.t + p.speed / 2.0)
  }

  /** The record after `k` frames. */
  function Run(p: Particle, k: nat): Particle
  {
    if k == 0 then p else Advance(Run(p, k - 1))
  }

  /** After `k` frames the phase has grown by exactly `k * speed / 2` and nothing else changed. */
  lemma {:induction false} RunPhase(p: Particle, k: nat)
    ensures Run(p, k).t == p.t + (k as real) * p.speed / 2.0
    ensures Run(p, k).(t := p.t) == p
  {
    if k > 0 {
      RunPhase(p, k - 1);
      assert (k as real) * p.speed == ((k - 1) as real) * p.speed + p.speed;
    }
  }

  /** With a positive speed the phase strictly increases from frame to frame. */
  lemma {:induction false} RunMonotonic(p: Particle, j: nat, k: nat)
    requires p.speed > 0.0 && j < k
    ensures Run(p, j).t < Run(p, k).t
  {
    RunPhase(p, k - 1);
    if j < k - 1 {
      RunMonotonic(p, j, k - 1);
    }
  }

  /** The two base-orbit signals of the source. */
  function OrbitA(t: real, m: MathLib): real { m.cos(t) + m.sin(t * 1.0) / 10.0 }
  function OrbitB(t: real, m: MathLib): real { m.sin(t) + m.cos(t * 2.0) / 10.0 }

  /** The slow sweep angle `(t / 10) * factor` shared by the three axes. */
  function Sweep(p: Particle): real { (p.t / 10.0) * p.factor }

  /** The unperturbed x, y and z coordinates of a record. */
  function BaseX(p: Particle, m: MathLib): real {
    (p.mx / 10.0) * OrbitA(p.t, m) + p.xFactor + m.cos(Sweep(p)) + (m.sin(p.t * 1.0) * p.factor) / 10.0
  }

  function BaseY(p: Particle, m: MathLib): real {
    (p.my / 10.0) * OrbitB(p.t, m) + p.yFactor + m.sin(Sweep(p)) + (m.cos(p.t * 2.0) * p.factor) / 10.0
  }

  function BaseZ(p: Particle, m: MathLib): real {
    (p.my / 10.0) * OrbitB(p.t, m) + p.zFactor + m.cos(Sweep(p)) + (m.sin(p.t * 3.0) * p.factor) / 10.0
  }

  /** A value in [-1, 1] scaled by `k >= 0` lies in [-k, k]. */
  lemma ScaledUnit(u: real, k: real)
    requires -1.0 <= u <= 1.0 && 0.0 <= k
    ensures -k <= u * k <= k
  {
    assert k - u * k == (1.0 - u) * k;
    assert k + u * k == (1.0 + u) * k;
    assert 0.0 <= (1.0 - u) * k;
    assert 0.0 <= (1.0 + u) * k;
  }

  /** One axis of the base motion: a unit term plus a unit term times `factor / 10`. */
  lemma AxisNearOrigin(c: real, u: real, k: real)
    requires -1.0 <= c <= 1.0 && -1.0 <= u <= 1.0 && 0.0 <= k
    ensures -1.0 - k / 10.0 <= c + (u * k) / 10.0 <= 1.0 + k / 10.0
  {
    ScaledUnit(u, k);
  }

  /**
   * A record with `mx = my = 0` stays within `1 + factor / 10` of its origin offset
   * on every axis, whatever its phase.
   */
  lemma BaseNearOrigin(p: Particle, m: MathLib)
    requires m.Valid()
    requires p.mx == 0.0 && p.my == 0.0 && p.factor >= 0.0
    ensures -1.0 - p.factor / 10.0 <= BaseX(p, m) - p.xFactor <= 1.0 + p.factor / 10.0
    ensures -1.0 - p.factor / 10.0 <= BaseY(p, m) - p.yFactor <= 1.0 + p.factor / 10.0
    ensures -1.0 - p.factor / 10.0 <= BaseZ(p, m) - p.zFactor <= 1.0 + p.factor / 10.0
  {
    var c := m.cos(Sweep(p));
    var s := m.sin(Sweep(p));
    var s1, c2, s3 := m.sin(p.t * 1.0), m.cos(p.t * 2.0), m.sin(p.t * 3.0);
    assert (p.mx / 10.0) * OrbitA(p.t, m) == 0.0 && (p.my / 10.0) * OrbitB(p.t, m) == 0.0;
    assert BaseX(p, m) - p.xFactor == c + (s1 * p.factor) / 10.0;
    assert BaseY(p, m) - p.yFactor == s + (c2 * p.factor) / 10.0;
    assert BaseZ(p, m) - p.zFactor == c + (s3 * p.factor) / 10.0;
    AxisNearOrigin(c, s1, p.factor);
    AxisNearOrigin(s, c2, p.factor);
    AxisNearOrigin(c, s3, p.factor);
  }

  /** Squared planar distance from (px, py) to the repulsion centre (mx, -my). */
  function SquaredDistance(px: real, py: real, mx: real, my: real): real {
    var dx := px - mx;
    var dy := py - (-my);
    dx * dx + dy * dy
  }

  /** `Math.sqrt(dx * dx + dy * dy)`. */
  function Distance(px: real, py: real, mx: real, my: real, m: MathLib): (d: real)
    requires m.Valid()
    ensures d >= 0.0
  {
    m.sqrt(SquaredDistance(px, py, mx, my))
  }

  /** Repulsion strength `(4 - dist) / 4`. */
  function Force(dist: real): (f: real)
    requires 0.0 <= dist < REPULSION_RADIUS
    ensures 0.0 < f <= 1.0
  {
    (REPULSION_RADIUS - dist) / REPULSION_RADIUS
  }

  /** The push along one axis: a direction component in [-1, 1] times `force * 2`. */
  function Push(u: real, force: real): (d: real)
    requires -1.0 <= u <= 1.0 && 0.0 < force <= 1.0
    ensures -REPULSION_STRENGTH <= d <= REPULSION_STRENGTH
  {
    ScaledUnit(u, force);
    u * force * REPULSION_STRENGTH
  }

  /**
   * Pushes (px, py) away from the world-space pointer (mx, my), whose y is negated
   * to match the scene's y-up axis. Only points closer than the radius move, and by
   * at most 2 on each axis.
   */
  function Repel(px: real, py: real, mx: real, my: real, m: MathLib): (r: (real, real))
    requires m.Valid()
    ensures Distance(px, py, mx, my, m) >= REPULSION_RADIUS ==> r == (px, py)
    ensures -REPULSION_STRENGTH <= r.0 - px <= REPULSION_STRENGTH
    ensures -REPULSION_STRENGTH <= r.1 - py <= REPULSION_STRENGTH
  {
    var dx := px - mx;
    var dy := py - (-my);
    var dist := Distance(px, py, mx, my, m);
    if dist < REPULSION_RADIUS then
      var force := Force(dist);
      var angle := m.atan2(dy, dx);
      (px + Push(m.cos(angle), force), py + Push(m.sin(angle), force))
    else
      (px, py)
  }

  /**
   * When `sqrt` is exact at the squared distance, a point is moved only if its squared
   * distance to the repulsion centre is below 16.
   */
  lemma RepelsOnlyInside(px: real, py: real, mx: real, my: real, m: MathLib)
    requires m.Valid()
    requires var d := Distance(px, py, mx, my, m); d * d == SquaredDistance(px, py, mx, my)
    requires Repel(px, py, mx, my, m) != (px, py)
    ensures SquaredDistance(px, py, mx, my) < REPULSION_RADIUS * REPULSION_RADIUS
  {
    var d := Distance(px, py, mx, my, m);
    assert d < REPULSION_RADIUS;
    SquareBelow(d, REPULSION_RADIUS);
  }

  lemma SquareBelow(d: real, r: real)
    requires 0.0 <= d < r
    ensures d * d < r * r
  {
    var g := r - d;
    var a, b, c := d * g, r * g, d * r;
    assert a >= 0.0 && b > 0.0;
    assert d * d == c - a;
    assert r * r == c + b;
  }

  /** The pointer in scene units: ten times its normalised coordinates. */
  function WorldX(ptr: Pointer): real { ptr.x * 10.0 }
  function WorldY(ptr: Pointer): real { ptr.y * 10.0 }

  /** The transform written for one (already advanced) record. */
  function Pose(p: Particle, ptr: Pointer, m: MathLib): (tr: Transform)
    requires m.Valid()
    ensures tr.position.z == BaseZ(p, m)
    ensures Distance(BaseX(p, m), BaseY(p, m), WorldX(ptr), WorldY(ptr), m) >= REPULSION_RADIUS
            ==> tr.position.x == BaseX(p, m) && tr.position.y == BaseY(p, m)
    ensures -REPULSION_STRENGTH <= tr.position.x - BaseX(p, m) <= REPULSION_STRENGTH
    ensures -REPULSION_STRENGTH <= tr.position.y - BaseY(p, m) <= REPULSION_STRENGTH
    ensures tr.scale.x == tr.scale.y == tr.scale.z == m.cos(p.t)
    ensures -1.0 <= tr.scale.x <= 1.0
    ensures tr.rotation.x == tr.rotation.y == tr.rotation.z == 5.0 * tr.scale.x
  {
    var s := m.cos(p.t);
    var xy := Repel(BaseX(p, m), BaseY(p, m), WorldX(ptr), WorldY(ptr), m);
    Transform(Vec3(xy.0, xy.1, BaseZ(p, m)), Vec3(s, s, s), Vec3(s * 5.0, s * 5.0, s * 5.0))
  }

  /** The instanced mesh: one transform per instance, and its upload flag. */
  class InstancedMesh {
    const matrices: array<Transform>
    var needsUpdate: bool

    constructor (count: nat)
      ensures matrices.Length == count && fresh(matrices) && !needsUpdate
    {
      matrices := new Transform[count];
      needsUpdate := false;
    }
  }

  /** The component's memoised record array, with the history the invariant refers to. */
  class ParticleField {
    const particles: array<Particle>
    /** The records as the construction loop built them. */
    ghost const spawned: seq<Particle>
    /** Frames in which the mesh was mounted. */
    ghost var frames: nat

    ghost predicate Valid()
      reads this, particles
    {
      && particles.Length == COUNT
      && |spawned| == COUNT
      && forall i :: 0 <= i < COUNT ==> Spawned(spawned[i]) && particles[i] == Run(spawned[i], frames)
    }

    /** The construction loop: one record per draw, `COUNT` records in all. */
    constructor (draws: seq<Draw>)
      requires |draws| == COUNT
      requires forall i :: 0 <= i < |draws| ==> ValidDraw(draws[i])
      ensures Valid() && fresh(particles) && frames == 0
      ensures forall i :: 0 <= i < COUNT ==> particles[i] == Spawn(draws[i])
    {
      var temp := new Particle[COUNT];
      for i := 0 to COUNT
        invariant forall j :: 0 <= j < i ==> temp[j] == Spawn(draws[j])
      {
        temp[i] := Spawn(draws[i]);
      }
      particles := temp;
      spawned := temp[..];
      frames := 0;
    }

    /**
     * One `useFrame` callback. With no mesh it returns at once. Otherwise every record
     * advances its phase, instance `i` receives the pose of record `i`, and the matrix
     * buffer is flagged for upload.
     */
    method Frame(mesh: InstancedMesh?, ptr: Pointer, m: MathLib)
      requires Valid() && m.Valid()
      requires mesh != null ==> mesh.matrices.Length == COUNT
      modifies this, particles, mesh, if mesh == null then {} else {mesh.matrices}
      ensures Valid()
      ensures mesh == null ==> unchanged(particles) && frames == old(frames)
      ensures mesh != null ==> frames == old(frames) + 1 && mesh.needsUpdate
      ensures mesh != null ==> forall i :: 0 <= i < COUNT ==>
        particles[i] == Advance(old(particles[i])) && mesh.matrices[i] == Pose(particles[i], ptr, m)
    {
      if mesh == null {
        return;
      }
      ghost var before := particles[..];
      UpdateInstances(particles, mesh.matrices, ptr, m);
      mesh.needsUpdate := true;
      frames := frames + 1;
      forall i | 0 <= i < COUNT
        ensures particles[i] == Run(spawned[i], frames)
      {
        assert particles[i] == Advance(before[i]);
      }
    }
  }

  /** The loop over all records: advance record `i`, then write its pose into slot `i`. */
  method UpdateInstances(records: array<Particle>, matrices: array<Transform>, ptr: Pointer, m: MathLib)
    requires m.Valid() && records.Length == matrices.Length
    modifies records, matrices
    ensures forall i :: 0 <= i < records.Length ==>
      records[i] == Advance(old(records[i])) && matrices[i] == Pose(records[i], ptr, m)
  {
    for i := 0 to records.Length
      invariant forall j :: 0 <= j < i ==>
        records[j] == Advance(old(records[j])) && matrices[j] == Pose(records[j], ptr, m)
      invariant forall j :: i <= j < records.Length ==> records[j] == old(records[j])
    {
      var particle := Advance(records[i]);
      records[i] := particle;
      matrices[i] := Pose(particle, ptr, m);
    }
  }

  /** Every record's phase keeps the construction ranges' speed, so it only grows, and `mx`/`my` stay 0. */
  lemma FieldInvariant(p0: Particle, k: nat)
    requires Spawned(p0)
    ensures Run(p0, k).mx == 0.0 && Run(p0, k).my == 0.0
    ensures Run(p0, k).t >= p0.t
    ensures Run(p0, k).speed == p0.speed && Run(p0, k).factor == p0.factor
  {
    RunPhase(p0, k);
    assert 0.0 <= (k as real) * p0.speed;
  }

  /**
   * Every record of the field, after any number of frames, stays within 13 of its
   * origin offset on each axis before repulsion: `mx` and `my` stay 0 and the factor
   * stays below 120.
   */
  lemma RecordsStayNearOrigin(p0: Particle, k: nat, m: MathLib)
    requires m.Valid() && Spawned(p0)
    ensures var p := Run(p0, k);
      && -13.0 <= BaseX(p, m) - p0.xFactor <= 13.0
      && -13.0 <= BaseY(p, m) - p0.yFactor <= 13.0
      && -13.0 <= BaseZ(p, m) - p0.zFactor <= 13.0
  {
    FieldInvariant(p0, k);
    RunPhase(p0, k);
    var p := Run(p0, k);
    assert p.xFactor == p0.xFactor && p.yFactor == p0.yFactor && p.zFactor == p0.zFactor;
    BaseNearOrigin(p, m);
  }
}
