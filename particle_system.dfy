/**
 * The host side of `ParticleSystem`: the particle store with its fixed
 * capacity, the two request queues drained at the end of every frame, the
 * append-only colour-group log, the rigid-group counter, the shape
 * builders, the signed-distance-field sample set, and the frame driver.
 *
 * The GPU work (integration, hashing, sorting, collision, constraint
 * projection) is not modelled; each kernel launch is recorded as a `Pass`
 * in the `trace` field, with the particle counts it is given.
 */
module ParticleSim {
  import opened Geometry
  import opened Sdf
  import opened Particles
  import Shapes
  import Sampling
  import LocalScan

  /** An `int2`. */
  datatype IVec2 = IVec2(x: int, y: int)

  /** A `float2`. */
  datatype Vec2 = Vec2(x: real, y: real)

  /** `m_maxSDFParticles`: the size of the buffers the SDF samples are copied into. */
  const MaxSdfParticles: nat := 45913

  /** The longest time step a frame integrates. */
  const MaxTimeStep: real := 0.05

  /** A shot position moved in x and y by `jx` and `jy` times the jitter, 1% of the radius `r`. */
  function Jittered(pos: Vec3, jx: real, jy: real, r: real): Vec3
  {
    var jitter := r * 0.01;
    Vec3(pos.x + jx * jitter, pos.y + jy * jitter, pos.z)
  }

  /** The zero velocity block builders write (`memset(vel, 0, ...)`). */
  const Still: Float4 := Float4(0.0, 0.0, 0.0, 0.0)

  /** One kernel launch, with the particle counts handed to it. */
  datatype Pass =
    | Integrate(dt: real, count: nat)
    | UploadSdf(count: nat)
    | HashSdf(count: nat)
    | SortSdf(count: nat)
    | ReorderSdf(count: nat)
    | Hash(count: nat)
    | Sort(count: nat)
    | Reorder(count: nat)
    | Collide(count: nat, sdfCount: nat)
    | SolveFluids(count: nat)
    | CollideWorld(count: nat)
    | SolveDistances
    | SolvePoints
    | CalcVelocity(dt: real, count: nat)

  // ---------------------------------------------------------------------
  // Frame structure

  /** `std::min(deltaTime, .05f)`. */
  function ClampStep(dt: real): (c: real)
    ensures c <= MaxTimeStep && c <= dt
    ensures c == dt || c == MaxTimeStep
  {
    Min(dt, MaxTimeStep)
  }

  /** How many samples `addSDFParticles` copies out of `m`: all of them, up to the buffer size. */
  function UploadCount(m: nat): (c: nat)
    ensures c <= m && c <= MaxSdfParticles
    ensures c == m || c == MaxSdfParticles
  {
    if m <= MaxSdfParticles then m else MaxSdfParticles
  }

  /** `addSDFParticles`: nothing for an empty sample set, else one capped copy. */
  function UploadPasses(m: nat): seq<Pass>
  {
    if m == 0 then [] else [UploadSdf(UploadCount(m))]
  }

  /** Hashing, sorting and cell lookup of the `m` SDF samples. */
  function SdfSortPasses(m: nat): seq<Pass>
  {
    [HashSdf(m), SortSdf(m), ReorderSdf(m)]
  }

  /** The SDF part of a frame without precomputation: copy, then sort, both skipped for no samples. */
  function SdfFramePasses(m: nat): seq<Pass>
  {
    if m == 0 then [] else UploadPasses(m) + SdfSortPasses(m)
  }

  /** One solver iteration over `n` particles and `m` SDF samples. */
  function SolverRound(n: nat, m: nat): seq<Pass>
  {
    [Hash(n), Sort(n), Reorder(n), Collide(n, m), SolveFluids(n), CollideWorld(n), SolveDistances, SolvePoints]
  }

  /** `k` solver iterations, one after another. */
  function SolverRounds(n: nat, m: nat, k: nat): seq<Pass>
  {
    if k == 0 then [] else SolverRounds(n, m, k - 1) + SolverRound(n, m)
  }

  /** The kernel launches of a frame over `n > 0` particles. */
  function FramePasses(dt: real, n: nat, precomputation: bool, m: nat, k: nat): seq<Pass>
  {
    [Integrate(ClampStep(dt), n)] + (if precomputation then [] else SdfFramePasses(m)) +
    SolverRounds(n, m, k) + [CalcVelocity(ClampStep(dt), n)]
  }

  /** `k` solver iterations are `8k` launches, the `i`-th being pass `i % 8` of the fixed order. */
  lemma {:induction false} SolverRoundsShape(n: nat, m: nat, k: nat)
    ensures |SolverRounds(n, m, k)| == 8 * k
    ensures forall i | 0 <= i < 8 * k :: SolverRounds(n, m, k)[i] == SolverRound(n, m)[i % 8]
  {
    if k > 0 {
      SolverRoundsShape(n, m, k - 1);
      var prev := SolverRounds(n, m, k - 1);
      var all := SolverRounds(n, m, k);
      assert all == prev + SolverRound(n, m);
      forall i | 0 <= i < 8 * k ensures all[i] == SolverRound(n, m)[i % 8] {
        if i >= 8 * (k - 1) {
          assert all[i] == SolverRound(n, m)[i - 8 * (k - 1)];
          assert i % 8 == i - 8 * (k - 1);
        } else {
          assert all[i] == prev[i];
        }
      }
    }
  }

  /**
   * A frame integrates once with the clamped step, then (without
   * precomputation) handles the SDF samples, then runs exactly `k` solver
   * iterations in the fixed order, and ends with the velocity update.
   */
  lemma FrameShape(dt: real, n: nat, precomputation: bool, m: nat, k: nat)
    ensures var t := FramePasses(dt, n, precomputation, m, k);
            var s := if precomputation then 0 else |SdfFramePasses(m)|;
            |t| == 2 + s + 8 * k &&
            t[0] == Integrate(ClampStep(dt), n) && ClampStep(dt) <= MaxTimeStep &&
            t[|t| - 1] == CalcVelocity(ClampStep(dt), n) &&
            t[1..1 + s] == (if precomputation then [] else SdfFramePasses(m)) &&
            forall i | 0 <= i < 8 * k :: t[1 + s + i] == SolverRound(n, m)[i % 8]
  {
    var sdf := if precomputation then [] else SdfFramePasses(m);
    var rounds := SolverRounds(n, m, k);
    SolverRoundsShape(n, m, k);
    var head := [Integrate(ClampStep(dt), n)] + sdf;
    var body := head + rounds;
    var t := FramePasses(dt, n, precomputation, m, k);
    assert t == body + [CalcVelocity(ClampStep(dt), n)];
    assert |head| == 1 + |sdf| && |body| == |head| + 8 * k;
    forall i | 0 <= i < 8 * k ensures t[1 + |sdf| + i] == SolverRound(n, m)[i % 8] {
      assert t[|head| + i] == body[|head| + i] == rounds[i];
    }
    assert t[0] == head[0] == Integrate(ClampStep(dt), n);
    assert t[1..1 + |sdf|] == head[1..] == sdf;
    assert t[|t| - 1] == CalcVelocity(ClampStep(dt), n);
    assert |sdf| == if precomputation then 0 else |SdfFramePasses(m)|;
  }

  /**
   * The SDF part of a frame: nothing for no samples; otherwise the copy of
   * at most `MaxSdfParticles` samples, then hashing, sorting and cell
   * lookup over all `m` of them.
   */
  lemma SdfFrameShape(m: nat)
    ensures m == 0 ==> SdfFramePasses(m) == []
    ensures 0 < m <= MaxSdfParticles ==> SdfFramePasses(m) == [UploadSdf(m), HashSdf(m), SortSdf(m), ReorderSdf(m)]
    ensures m > MaxSdfParticles ==>
              SdfFramePasses(m) == [UploadSdf(MaxSdfParticles), HashSdf(m), SortSdf(m), ReorderSdf(m)]
  {
  }

  /**
   * Above the buffer size, the copy is capped but the SDF hashing and
   * sorting launches are still handed the full sample count.
   */
  lemma SdfKernelsSeeUncappedCount(m: nat)
    requires m > MaxSdfParticles
    ensures |SdfFramePasses(m)| == 4
    ensures SdfFramePasses(m)[0] == UploadSdf(MaxSdfParticles)
    ensures SdfFramePasses(m)[1] == HashSdf(m) && SdfFramePasses(m)[1].count > MaxSdfParticles
  {
  }

  /** Regrouping a trace extended by four parts. */
  lemma SeqAssoc<T>(t: seq<T>, a: seq<T>, b: seq<T>, c: seq<T>, d: seq<T>)
    ensures t + a + b + c + d == t + (a + b + c + d)
  {
  }

  // ---------------------------------------------------------------------
  // Store updates

  /** A batch of particles sharing inverse mass, density and phase, at rest (`memset(vel, 0, ...)`). */
  function Uniform(pos: seq<Float4>, invMass: real, density: real, phase: Phase): seq<Particle>
  {
    seq(|pos|, k requires 0 <= k < |pos| => Particle(pos[k], Still, invMass, density, phase))
  }

  /** `addParticleMultiple`: the whole batch, or nothing when `n + count >= max`. */
  function Admit(ps: seq<Particle>, batch: seq<Particle>, cap: nat): seq<Particle>
  {
    if BatchAccepted(|batch|, |ps|, cap) then ps + batch else ps
  }

  /** Batches are all-or-nothing, never overflow the store, and one that would exactly fill it is refused. */
  lemma AdmitAllOrNothing(ps: seq<Particle>, batch: seq<Particle>, cap: nat)
    requires |ps| <= cap
    ensures Admit(ps, batch, cap) == ps + batch || Admit(ps, batch, cap) == ps
    ensures |Admit(ps, batch, cap)| <= cap
    ensures |ps| + |batch| >= cap ==> Admit(ps, batch, cap) == ps
    ensures |ps| + |batch| < cap ==> Admit(ps, batch, cap) == ps + batch
    ensures |ps| < cap ==> |Admit(ps, batch, cap)| < cap
  {
  }

  /** The store after a run of batch inserts, oldest first. */
  function AdmitAll(ps: seq<Particle>, batches: seq<seq<Particle>>, cap: nat): seq<Particle>
  {
    if |batches| == 0 then ps
    else Admit(AdmitAll(ps, batches[..|batches| - 1], cap), batches[|batches| - 1], cap)
  }

  /**
   * Because a batch that would exactly fill the store is refused, a store
   * that is not full stays not full however many batches are inserted, and
   * keeps what it held as a prefix.
   */
  lemma {:induction false} BatchesNeverFill(ps: seq<Particle>, batches: seq<seq<Particle>>, cap: nat)
    requires |ps| < cap
    ensures |ps| <= |AdmitAll(ps, batches, cap)| < cap
    ensures AdmitAll(ps, batches, cap)[..|ps|] == ps
  {
    if |batches| > 0 {
      var before := AdmitAll(ps, batches[..|batches| - 1], cap);
      BatchesNeverFill(ps, batches[..|batches| - 1], cap);
      AdmitAllOrNothing(before, batches[|batches| - 1], cap);
      var after := AdmitAll(ps, batches, cap);
      assert after == before || after == before + batches[|batches| - 1];
      assert after[..|before|] == before;
      assert after[..|ps|] == before[..|ps|];
    }
  }

  /**
   * The arrays a builder fills for its positions (`memset` of the
   * velocities to zero, `std::fill` of inverse mass, density and phase)
   * zip to particles at rest sharing those three attributes.
   */
  lemma FilledBatchIsUniform(pos: seq<Float4>, invMass: real, density: real, phase: Phase)
    ensures Batch(pos, Shapes.Repeat(Still, |pos|), Shapes.Repeat(invMass, |pos|), Shapes.Repeat(density, |pos|),
                  Shapes.Repeat(phase, |pos|), |pos|) == Uniform(pos, invMass, density, phase)
  {
  }

  /** The store after a frame's drain: the queued shots, then the queued fluids, each capped. */
  function Drain(ps: seq<Particle>, shots: seq<Float4>, fluids: seq<Float4>, cap: nat): seq<Particle>
    requires |ps| <= cap && ShotQueue(shots) && FluidQueue(fluids)
  {
    AppendCapped(AppendCapped(ps, DecodeShots(shots), cap), DecodeFluids(fluids), cap)
  }

  /** The colour group the drain logs: one `(start, n)` for the fluids, if any were queued. */
  function DrainGroups(ps: seq<Particle>, shots: seq<Float4>, fluids: seq<Float4>, cap: nat): seq<ColorGroup>
    requires |ps| <= cap && ShotQueue(shots) && FluidQueue(fluids)
  {
    if |fluids| == 0 then []
    else [ColorGroup(|AppendCapped(ps, DecodeShots(shots), cap)|, |Drain(ps, shots, fluids, cap)|)]
  }

  /** The colour the drain logs: the last queued fluid colour with `w = 1`. */
  function DrainColors(fluids: seq<Float4>): seq<Float4>
  {
    if |fluids| == 0 then [] else [WithW(Xyz(fluids[|fluids| - 1]), 1.0)]
  }

  /**
   * The drain keeps the store as a prefix, never exceeds the capacity, and
   * takes queued requests in FIFO order, shots before fluids; with room for
   * all of them, every request becomes exactly one particle.
   */
  lemma DrainInOrder(ps: seq<Particle>, shots: seq<Float4>, fluids: seq<Float4>, cap: nat)
    requires |ps| <= cap && ShotQueue(shots) && FluidQueue(fluids)
    ensures |Drain(ps, shots, fluids, cap)| <= cap
    ensures Drain(ps, shots, fluids, cap)[..|ps|] == ps
    ensures |ps| + |shots| / 2 + |fluids| / 2 <= cap ==>
              Drain(ps, shots, fluids, cap) == ps + DecodeShots(shots) + DecodeFluids(fluids)
    ensures |ps| + |shots| / 2 + |fluids| / 2 > cap ==> |Drain(ps, shots, fluids, cap)| == cap
  {
    var mid := AppendCapped(ps, DecodeShots(shots), cap);
    var r := AppendCapped(mid, DecodeFluids(fluids), cap);
    assert mid[..|ps|] == ps;
    assert r[..|mid|] == mid;
    assert r[..|ps|] == mid[..|ps|];
    if |ps| + |shots| / 2 + |fluids| / 2 <= cap {
      assert mid == ps + DecodeShots(shots);
      assert r == mid + DecodeFluids(fluids);
    }
  }

  /** The queued fluids logged by the drain form one group covering exactly the fluids admitted. */
  lemma DrainGroupCoversFluids(ps: seq<Particle>, shots: seq<Float4>, fluids: seq<Float4>, cap: nat)
    requires |ps| <= cap && ShotQueue(shots) && FluidQueue(fluids) && |fluids| > 0
    ensures var g := DrainGroups(ps, shots, fluids, cap)[0];
            var r := Drain(ps, shots, fluids, cap);
            |DrainGroups(ps, shots, fluids, cap)| == 1 &&
            g.start <= g.end == |r| &&
            r[g.start..g.end] == DecodeFluids(fluids)[..g.end - g.start]
  {
    var mid := AppendCapped(ps, DecodeShots(shots), cap);
    var r := AppendCapped(mid, DecodeFluids(fluids), cap);
    assert r[|mid|..] == DecodeFluids(fluids)[..|r| - |mid|];
  }

  /** The samples `generateParticlesLocal` leaves: the distinct points of the local scan. */
  ghost predicate LocalSamples(samples: seq<Float4>, sdfs: seq<Field>, r: real, minBounds: IVec3, maxBounds: IVec3,
                               positions: seq<Float4>)
    requires r > 0.0
  {
    var pts := LocalScan.LocalPoints(sdfs, r, minBounds, maxBounds, positions, |positions|);
    |samples| == |pts| && (forall q :: q in samples <==> q in pts) &&
    forall a, b | 0 <= a < b < |samples| :: samples[a] != samples[b]
  }

  /** The lattice points of an axis-aligned block builder at spacing `d`. */
  function BlockPositions(ll: IVec3, ur: IVec3, d: real): seq<Float4>
    requires ll.x <= ur.x && ll.y <= ur.y && ll.z <= ur.z && d > 0.0
  {
    Shapes.GridBlock(ll, d, Shapes.GridCount(ll.x, ur.x, d), Shapes.GridCount(ll.y, ur.y, d),
                     Shapes.GridCount(ll.z, ur.z, d))
  }

  /** A block builder submits the product of its three per-axis counts. */
  lemma BlockCount(ll: IVec3, ur: IVec3, d: real)
    requires ll.x <= ur.x && ll.y <= ur.y && ll.z <= ur.z && d > 0.0
    ensures |BlockPositions(ll, ur, d)| ==
            Shapes.GridCount(ll.x, ur.x, d) * Shapes.GridCount(ll.y, ur.y, d) * Shapes.GridCount(ll.z, ur.z, d)
  {
    Shapes.GridBlockSize(ll, d, Shapes.GridCount(ll.x, ur.x, d), Shapes.GridCount(ll.y, ur.y, d),
                         Shapes.GridCount(ll.z, ur.z, d));
  }

  /** How often a builder loop `for (i = 0; i < count; i++)` runs for the truncated count of `[lo, hi)`: never when `hi < lo`. */
  function LoopCount(lo: int, hi: int, d: real): nat
    requires d > 0.0
  {
    if lo <= hi then Shapes.GridCount(lo, hi, d) else 0
  }

  /** The block points `addStaticSphere` keeps: those strictly inside the ball inscribed along x. */
  function SpherePoints(ll: IVec3, ur: IVec3, spacing: real): seq<Float4>
    requires spacing > 0.0
  {
    var sr := (ur.x - ll.x) as real * 0.5;
    Shapes.KeepInside(Shapes.GridBlock(ll, spacing, LoopCount(ll.x, ur.x, spacing), LoopCount(ll.y, ur.y, spacing),
                                       LoopCount(ll.z, ur.z, spacing)),
                      Add(ToVec3(ll), Vec3(sr, sr, sr)), sr)
  }

  // ---------------------------------------------------------------------
  // The particle system

  class ParticleSystem {
    const radius: real
    const maxParticles: nat
    const minBounds: IVec3
    const maxBounds: IVec3
    const solverIterations: nat
    const precomputation: bool

    /** The particles appended so far; `m_numParticles` is its length. */
    var particles: seq<Particle>
    /** Distance constraints registered with the solver. */
    var distances: seq<DistanceConstraint>
    /** Point constraints registered with the solver. */
    var points: seq<PointConstraint>
    /** `m_particlesToAdd`: (pos, vel) pairs. */
    var particlesToAdd: seq<Float4>
    /** `m_fluidsToAdd`: (pos, color) pairs. */
    var fluidsToAdd: seq<Float4>
    var colorIndex: seq<ColorGroup>
    var colors: seq<Float4>
    var rigidIndex: int
    var sdfs: seq<Field>
    var sdfParticles: seq<Float4>
    /** `m_iterations`: frames simulated. */
    var iterations: nat
    /** The kernel launches so far. */
    var trace: seq<Pass>

    /**
     * The store stays within capacity, the queues hold whole pairs with
     * non-zero masses, the colour log's two vectors stay parallel, and every
     * colour group starts at a particle index already reached.
     */
    predicate Valid()
      reads this
    {
      radius > 0.0 && |particles| <= maxParticles && |colorIndex| == |colors| &&
      ShotQueue(particlesToAdd) && FluidQueue(fluidsToAdd) &&
      forall k | 0 <= k < |colorIndex| ::
        0 <= colorIndex[k].start <= colorIndex[k].end && colorIndex[k].start <= |particles|
    }

    /** A new, empty system; `precomputation` defaults to true. */
    constructor (radius: real, maxParticles: nat, minBounds: IVec3, maxBounds: IVec3, solverIterations: nat,
                 precomputation: bool := true)
      requires radius > 0.0
      ensures Valid()
      ensures this.radius == radius && this.maxParticles == maxParticles
      ensures this.minBounds == minBounds && this.maxBounds == maxBounds
      ensures this.solverIterations == solverIterations && this.precomputation == precomputation
      ensures particles == [] && distances == [] && points == []
      ensures particlesToAdd == [] && fluidsToAdd == [] && colorIndex == [] && colors == []
      ensures rigidIndex == 0 && sdfs == [] && sdfParticles == [] && iterations == 0 && trace == []
    {
      this.radius := radius;
      this.maxParticles := maxParticles;
      this.minBounds := minBounds;
      this.maxBounds := maxBounds;
      this.solverIterations := solverIterations;
      this.precomputation := precomputation;
      particles, distances, points := [], [], [];
      particlesToAdd, fluidsToAdd, colorIndex, colors := [], [], [], [];
      rigidIndex, sdfs, sdfParticles, iterations, trace := 0, [], [], 0, [];
    }

    /** `getNumParticles`. */
    function NumParticles(): (n: nat)
      reads this
      ensures n == |particles|
    {
      |particles|
    }

    /** `getNumParticlesSdf`: the whole sample count, not the part copied under the cap. */
    function NumParticlesSdf(): (n: nat)
      reads this
      ensures n == |sdfParticles| && n >= UploadCount(|sdfParticles|)
    {
      |sdfParticles|
    }

    // -------------------------------------------------------------------
    // Inserting

    /** `addParticle`: dropped when the store is full, else appended with inverse mass `1/mass`. */
    method AddParticle(pos: Float4, vel: Float4, mass: real, density: real, phase: Phase)
      requires Valid() && mass != 0.0
      modifies this`particles
      ensures Valid()
      ensures particles == InsertOne(old(particles), Particle(pos, vel, 1.0 / mass, density, phase), maxParticles)
    {
      if |particles| == maxParticles {
        return;
      }
      particles := particles + [Particle(pos, vel, 1.0 / mass, density, phase)];
    }

    /** `addParticleMultiple`: the first `n` entries of the five parallel arrays, appended all or nothing. */
    method AddParticleMultiple(pos: seq<Float4>, vel: seq<Float4>, w: seq<real>, ro: seq<real>, phase: seq<Phase>, n: nat)
      requires Valid()
      requires n <= |pos| && n <= |vel| && n <= |w| && n <= |ro| && n <= |phase|
      modifies this`particles
      ensures Valid()
      ensures particles == Admit(old(particles), Batch(pos, vel, w, ro, phase, n), maxParticles)
    {
      if |particles| + n >= maxParticles {
        return;
      }
      particles := particles + Batch(pos, vel, w, ro, phase, n);
    }

    /** A builder's tail: zero velocities and one inverse mass, density and phase for all of `pos`, then the batch insert. */
    method AddUniform(pos: seq<Float4>, invMass: real, density: real, phase: Phase)
      requires Valid()
      modifies this`particles
      ensures Valid()
      ensures particles == Admit(old(particles), Uniform(pos, invMass, density, phase), maxParticles)
    {
      var arraySize := |pos|;
      var vel := Shapes.Repeat(Still, arraySize);
      var w := Shapes.Repeat(invMass, arraySize);
      var ro := Shapes.Repeat(density, arraySize);
      var phases := Shapes.Repeat(phase, arraySize);
      FilledBatchIsUniform(pos, invMass, density, phase);
      AddParticleMultiple(pos, vel, w, ro, phases, arraySize);
    }

    /**
     * `setParticleToAdd`: queues a shot, its position jittered in x and y
     * by `jx` and `jy` (the `frand()*2-1` draws) times 1% of the radius,
     * and logs its colour group `(n, n + 1)` straight away.
     */
    method SetParticleToAdd(pos: Vec3, vel: Vec3, mass: real, jx: real, jy: real, rnd: nat)
      requires Valid() && mass != 0.0
      requires -1.0 <= jx <= 1.0 && -1.0 <= jy <= 1.0
      modifies this`particlesToAdd, this`colorIndex, this`colors
      ensures Valid()
      ensures var jittered := Jittered(pos, jx, jy, radius);
              particlesToAdd == old(particlesToAdd) + EncodeShot(jittered, vel, mass) &&
              DecodeShots(particlesToAdd) ==
                DecodeShots(old(particlesToAdd)) + [Particle(WithW(jittered, 1.0), WithW(vel, 0.0), 1.0 / mass, ShotDensity, Solid)]
      ensures colorIndex == old(colorIndex) + [ColorGroup(|particles|, |particles| + 1)]
      ensures colors == old(colors) + [PaletteColor(rnd)]
    {
      var jittered := Jittered(pos, jx, jy, radius);
      ShotQueueRoundTrip(particlesToAdd, jittered, vel, mass);
      particlesToAdd := particlesToAdd + EncodeShot(jittered, vel, mass);
      colorIndex := colorIndex + [ColorGroup(|particles|, |particles| + 1)];
      colors := colors + [PaletteColor(rnd)];
    }

    /** `setFluidToAdd`: queues one fluid particle; no colour group is logged until the drain. */
    method SetFluidToAdd(pos: Vec3, color: Vec3, mass: real, density: real)
      requires Valid() && mass != 0.0
      modifies this`fluidsToAdd
      ensures Valid()
      ensures fluidsToAdd == old(fluidsToAdd) + EncodeFluid(pos, color, mass, density)
      ensures DecodeFluids(fluidsToAdd) ==
              DecodeFluids(old(fluidsToAdd)) + [Particle(WithW(pos, 1.0), Float4(0.0, -1.0, 0.0, 0.0), 1.0 / mass, density, Fluid)]
    {
      FluidQueueRoundTrip(fluidsToAdd, pos, color, mass, density);
      fluidsToAdd := fluidsToAdd + EncodeFluid(pos, color, mass, density);
    }

    /**
     * Pops the front (pos, vel) pair of the shot queue and inserts that shot
     * singly; `done` are the shots popped before, into the store `ps0`.
     */
    method PopShot(ghost ps0: seq<Particle>, ghost done: seq<Particle>) returns (ghost done': seq<Particle>)
      requires Valid() && |particlesToAdd| >= 2 && |ps0| <= maxParticles
      requires particles == AppendCapped(ps0, done, maxParticles)
      modifies this`particles, this`particlesToAdd
      ensures Valid()
      ensures particlesToAdd == old(particlesToAdd)[2..]
      ensures done + DecodeShots(old(particlesToAdd)) == done' + DecodeShots(particlesToAdd)
      ensures particles == AppendCapped(ps0, done', maxParticles)
    {
      ShotQueuePop(particlesToAdd);
      var pos := particlesToAdd[0];
      particlesToAdd := particlesToAdd[1..];
      var vel := particlesToAdd[0];
      particlesToAdd := particlesToAdd[1..];
      assert particlesToAdd == old(particlesToAdd)[2..];
      AddParticle(pos, WithW(Xyz(vel), 0.0), vel.w, ShotDensity, Solid);
      AppendCappedSnoc(ps0, done, Shot(pos, vel), maxParticles);
      done' := done + [Shot(pos, vel)];
    }

    /** `addParticles`: pops the shot queue pair by pair, inserting each shot singly. */
    method AddParticles()
      requires Valid()
      modifies this`particles, this`particlesToAdd
      ensures Valid()
      ensures particles == AppendCapped(old(particles), DecodeShots(old(particlesToAdd)), maxParticles)
      ensures particlesToAdd == []
    {
      if |particlesToAdd| == 0 {
        return;
      }
      ghost var ps0, q0 := particles, particlesToAdd;
      ghost var done: seq<Particle> := [];
      var size := |particlesToAdd| / 2;
      for i := 0 to size
        invariant Valid()
        invariant |particlesToAdd| == |q0| - 2 * i
        invariant DecodeShots(q0) == done + DecodeShots(particlesToAdd)
        invariant particles == AppendCapped(ps0, done, maxParticles)
      {
        done := PopShot(ps0, done);
      }
    }

    /**
     * Pops the front (pos, color) pair of the fluid queue, inserts that
     * particle singly, and yields the colour; `done` are the particles popped
     * before, into the store `ps0`.
     */
    method PopFluid(ghost ps0: seq<Particle>, ghost done: seq<Particle>) returns (color: Float4, ghost done': seq<Particle>)
      requires Valid() && |fluidsToAdd| >= 2 && |ps0| <= maxParticles
      requires particles == AppendCapped(ps0, done, maxParticles)
      modifies this`particles, this`fluidsToAdd
      ensures Valid()
      ensures color == old(fluidsToAdd)[1] && fluidsToAdd == old(fluidsToAdd)[2..]
      ensures done + DecodeFluids(old(fluidsToAdd)) == done' + DecodeFluids(fluidsToAdd)
      ensures particles == AppendCapped(ps0, done', maxParticles)
    {
      FluidQueuePop(fluidsToAdd);
      var pos := fluidsToAdd[0];
      fluidsToAdd := fluidsToAdd[1..];
      color := fluidsToAdd[0];
      fluidsToAdd := fluidsToAdd[1..];
      assert fluidsToAdd == old(fluidsToAdd)[2..];
      AddParticle(WithW(Xyz(pos), 1.0), Float4(0.0, -1.0, 0.0, 0.0), pos.w, color.w, Fluid);
      AppendCappedSnoc(ps0, done, QueuedFluid(pos, color), maxParticles);
      done' := done + [QueuedFluid(pos, color)];
    }

    /**
     * `addFluids`: pops the fluid queue pair by pair, inserting each
     * particle singly, then logs one colour group over the whole drain with
     * the last popped colour.
     */
    method AddFluids()
      requires Valid()
      modifies this`particles, this`fluidsToAdd, this`colorIndex, this`colors
      ensures Valid()
      ensures particles == AppendCapped(old(particles), DecodeFluids(old(fluidsToAdd)), maxParticles)
      ensures fluidsToAdd == []
      ensures colorIndex ==
              old(colorIndex) + (if |old(fluidsToAdd)| == 0 then [] else [ColorGroup(|old(particles)|, |particles|)])
      ensures colors == old(colors) + DrainColors(old(fluidsToAdd))
    {
      if |fluidsToAdd| == 0 {
        return;
      }
      var start := |particles|;
      ghost var ps0, q0 := particles, fluidsToAdd;
      ghost var done: seq<Particle> := [];
      var size := |fluidsToAdd| / 2;
      var color := fluidsToAdd[1];
      assert 2 * size == |q0|;
      for i := 0 to size
        modifies this`particles, this`fluidsToAdd
        invariant Valid()
        invariant fluidsToAdd == q0[2 * i..]
        invariant i > 0 ==> color == q0[2 * i - 1]
        invariant DecodeFluids(q0) == done + DecodeFluids(fluidsToAdd)
        invariant particles == AppendCapped(ps0, done, maxParticles)
      {
        color, done := PopFluid(ps0, done);
      }
      DrainLogs(start, color);
    }

    /** Logs the colour group of a fluid drain that began at particle `start`. */
    method DrainLogs(start: int, color: Float4)
      requires Valid() && 0 <= start <= |particles|
      modifies this`colorIndex, this`colors
      ensures Valid()
      ensures colorIndex == old(colorIndex) + [ColorGroup(start, |particles|)]
      ensures colors == old(colors) + [WithW(Xyz(color), 1.0)]
    {
      colorIndex := colorIndex + [ColorGroup(start, |particles|)];
      colors := colors + [WithW(Xyz(color), 1.0)];
    }

    /** `addNewStuff`: the end-of-frame drain, shots first. */
    method AddNewStuff()
      requires Valid()
      modifies this`particles, this`particlesToAdd, this`fluidsToAdd, this`colorIndex, this`colors
      ensures Valid()
      ensures particles == Drain(old(particles), old(particlesToAdd), old(fluidsToAdd), maxParticles)
      ensures particlesToAdd == [] && fluidsToAdd == []
      ensures colorIndex ==
              old(colorIndex) + DrainGroups(old(particles), old(particlesToAdd), old(fluidsToAdd), maxParticles)
      ensures colors == old(colors) + DrainColors(old(fluidsToAdd))
    {
      AddParticles();
      AddFluids();
    }

    // -------------------------------------------------------------------
    // Shape builders

    /** `addFluid`: a FLUID block at spacing 2.5r, one colour group with the given colour. */
    method AddFluid(ll: IVec3, ur: IVec3, mass: real, density: real, color: Vec3)
      requires Valid() && mass != 0.0 && ll.x <= ur.x && ll.y <= ur.y && ll.z <= ur.z
      modifies this`particles, this`colorIndex, this`colors
      ensures Valid()
      ensures particles ==
              Admit(old(particles), Uniform(BlockPositions(ll, ur, radius * 2.5), 1.0 / mass, density, Fluid), maxParticles)
      ensures colorIndex == old(colorIndex) + [ColorGroup(|old(particles)|, |particles|)]
      ensures colors == old(colors) + [WithW(color, 1.0)]
    {
      var start := |particles|;
      var distance := radius * 2.5;
      var pos := Shapes.GridPositions(ll, distance, Shapes.GridCount(ll.x, ur.x, distance),
                                      Shapes.GridCount(ll.y, ur.y, distance), Shapes.GridCount(ll.z, ur.z, distance));
      AddUniform(pos, 1.0 / mass, density, Fluid);
      colorIndex := colorIndex + [ColorGroup(start, |particles|)];
      colors := colors + [WithW(color, 1.0)];
    }

    /** `addParticleGrid`: a SOLID block at spacing 2.002r, one colour group with a palette colour. */
    method AddParticleGrid(ll: IVec3, ur: IVec3, mass: real, rnd: nat)
      requires Valid() && mass != 0.0 && ll.x <= ur.x && ll.y <= ur.y && ll.z <= ur.z
      modifies this`particles, this`colorIndex, this`colors
      ensures Valid()
      ensures particles ==
              Admit(old(particles), Uniform(BlockPositions(ll, ur, radius * 2.002), 1.0 / mass, 1.0, Solid), maxParticles)
      ensures colorIndex == old(colorIndex) + [ColorGroup(|old(particles)|, |particles|)]
      ensures colors == old(colors) + [PaletteColor(rnd)]
    {
      var start := |particles|;
      var distance := radius * 2.002;
      var pos := Shapes.GridPositions(ll, distance, Shapes.GridCount(ll.x, ur.x, distance),
                                      Shapes.GridCount(ll.y, ur.y, distance), Shapes.GridCount(ll.z, ur.z, distance));
      AddUniform(pos, 1.0 / mass, 1.0, Solid);
      colorIndex := colorIndex + [ColorGroup(start, |particles|)];
      colors := colors + [PaletteColor(rnd)];
    }

    /**
     * `addHorizCloth`: a RIGID sheet of its own group, with its anchors and
     * links registered whether or not the batch was taken.
     */
    method AddHorizCloth(ll: IVec2, ur: IVec2, spacing: Vec3, dist: Vec2, mass: real, holdEdges: bool, rnd: nat)
      requires Valid() && mass != 0.0 && spacing.x > 0.0 && spacing.z > 0.0 && ll.x <= ur.x && ll.y <= ur.y
      modifies this`particles, this`points, this`distances, this`colorIndex, this`colors, this`rigidIndex
      ensures Valid()
      ensures var cx, cy := Shapes.GridCount(ll.x, ur.x, spacing.x), Shapes.GridCount(ll.y, ur.y, spacing.z);
              var start := |old(particles)|;
              particles == Admit(old(particles), Uniform(Shapes.ClothSheet(ll.x, ll.y, spacing, cx, cy), 1.0 / mass, 1.0,
                                                         Rigid(old(rigidIndex))), maxParticles) &&
              points == old(points) + Shapes.ClothAnchorsBefore(start, ll.x, ll.y, spacing, cx, cy, holdEdges, cy, 0) &&
              distances == old(distances) + Shapes.ClothLinksBefore(start, cx, dist.x, dist.y, cy, 0)
      ensures colorIndex == old(colorIndex) + [ColorGroup(|old(particles)|, |particles|)]
      ensures colors == old(colors) + [PaletteColor(rnd)]
      ensures rigidIndex == old(rigidIndex) + 1
    {
      var start := |particles|;
      var cx := Shapes.GridCount(ll.x, ur.x, spacing.x);
      var cy := Shapes.GridCount(ll.y, ur.y, spacing.z);
      var pos, anchors, links := Shapes.ClothArrays(start, ll.x, ll.y, spacing, dist.x, dist.y, cx, cy, holdEdges);
      AddUniform(pos, 1.0 / mass, 1.0, Rigid(rigidIndex));
      points := points + anchors;
      distances := distances + links;
      colorIndex := colorIndex + [ColorGroup(start, |particles|)];
      colors := colors + [PaletteColor(rnd)];
      rigidIndex := rigidIndex + 1;
    }

    /**
     * `addRope`: `numLinks + 1` RIGID particles of its own group, the chain
     * of links, and a point constraint on the first one iff `constrainStart`.
     */
    method AddRope(start: Vec3, spacing: Vec3, dist: real, numLinks: nat, mass: real, constrainStart: bool, rnd: nat)
      requires Valid() && mass != 0.0
      modifies this`particles, this`points, this`distances, this`colorIndex, this`colors, this`rigidIndex
      ensures Valid()
      ensures particles == Admit(old(particles), Uniform(Shapes.RopePositions(start, spacing, numLinks), 1.0 / mass, 1.0,
                                                         Rigid(old(rigidIndex))), maxParticles)
      ensures distances == old(distances) + Shapes.RopeLinks(|old(particles)|, dist, numLinks)
      ensures points == old(points) + (if constrainStart then [PointConstraint(|old(particles)|, start)] else [])
      ensures colorIndex == old(colorIndex) + [ColorGroup(|old(particles)|, |particles|)]
      ensures colors == old(colors) + [PaletteColor(rnd)]
      ensures rigidIndex == old(rigidIndex) + 1
    {
      var startI := |particles|;
      var pos, links := Shapes.RopeArrays(startI, start, spacing, dist, numLinks);
      AddUniform(pos, 1.0 / mass, 1.0, Rigid(rigidIndex));
      distances := distances + links;
      if constrainStart {
        points := points + [PointConstraint(startI, start)];
      }
      colorIndex := colorIndex + [ColorGroup(startI, |particles|)];
      colors := colors + [PaletteColor(rnd)];
      rigidIndex := rigidIndex + 1;
    }

    /**
     * `addStaticSphere`: the block points strictly inside the sphere, RIGID
     * of their own group with inverse mass 0.01, each pinned where it stands.
     */
    method AddStaticSphere(ll: IVec3, ur: IVec3, spacing: real, rnd: nat)
      requires Valid() && spacing > 0.0
      modifies this`particles, this`points, this`colorIndex, this`colors, this`rigidIndex
      ensures Valid()
      ensures particles == Admit(old(particles), Uniform(SpherePoints(ll, ur, spacing), 0.01, 1.0, Rigid(old(rigidIndex))),
                                 maxParticles)
      ensures |points| >= |old(points)| && points[..|old(points)|] == old(points)
      ensures Shapes.SelfAnchored(points[|old(points)|..], SpherePoints(ll, ur, spacing), |old(particles)|)
      ensures colorIndex == old(colorIndex) + [ColorGroup(|old(particles)|, |particles|)]
      ensures colors == old(colors) + [PaletteColor(rnd)]
      ensures rigidIndex == old(rigidIndex) + 1
    {
      var startI := |particles|;
      var cx := LoopCount(ll.x, ur.x, spacing);
      var cy := LoopCount(ll.y, ur.y, spacing);
      var cz := LoopCount(ll.z, ur.z, spacing);
      var sphereRadius := (ur.x - ll.x) as real * 0.5;
      var center := Add(ToVec3(ll), Vec3(sphereRadius, sphereRadius, sphereRadius));
      var pos, anchors := Shapes.SpherePositions(startI, ll, spacing, cx, cy, cz, center, sphereRadius);
      AddUniform(pos, 0.01, 1.0, Rigid(rigidIndex));
      ghost var p0 := points;
      points := points + anchors;
      assert points[|p0|..] == anchors;
      colorIndex := colorIndex + [ColorGroup(startI, |particles|)];
      colors := colors + [PaletteColor(rnd)];
      rigidIndex := rigidIndex + 1;
    }

    /**
     * `addDeformableCube`: 27 SOLID particles around `position` at spacing
     * 2.002r and 54 links between axis neighbours; the rigid-group counter
     * is left alone.
     */
    method AddDeformableCube(position: IVec3, mass: real, rnd: nat)
      requires Valid() && mass != 0.0
      modifies this`particles, this`distances, this`colorIndex, this`colors
      ensures Valid()
      ensures var start := |old(particles)|;
              var d := radius * 2.002;
              |particles| == (if BatchAccepted(27, start, maxParticles) then start + 27 else start) &&
              particles[..start] == old(particles) &&
              (BatchAccepted(27, start, maxParticles) ==>
                 forall z, y, x | -1 <= z <= 1 && -1 <= y <= 1 && -1 <= x <= 1 ::
                   particles[start + (z + 1) * 9 + (y + 1) * 3 + (x + 1)] ==
                   Particle(Shapes.CubePoint(position, d, x, y, z), Still, 1.0 / mass, 1.0, Solid))
      ensures |distances| == |old(distances)| + 54 && distances[..|old(distances)|] == old(distances)
      ensures forall k | |old(distances)| <= k < |distances| ::
                Shapes.CubeLink(distances[k], |old(particles)|, radius * 2.002)
      ensures forall a, b | |old(distances)| <= a < b < |distances| :: Shapes.EmittedBefore(distances[a], distances[b])
      ensures colorIndex == old(colorIndex) + [ColorGroup(|old(particles)|, |particles|)]
      ensures colors == old(colors) + [PaletteColor(rnd)]
    {
      var start := |particles|;
      var distance := radius * 2.002;
      var pos := Shapes.CubePositions(position, distance);
      AddUniform(pos, 1.0 / mass, 1.0, Solid);
      colorIndex := colorIndex + [ColorGroup(start, |particles|)];
      colors := colors + [PaletteColor(rnd)];
      var links := Shapes.CubeLinks(start, distance);
      ghost var d0 := distances;
      distances := distances + links;
      assert distances[|d0|..] == links;
    }

    // -------------------------------------------------------------------
    // Signed distance fields

    /** `addSDF`. */
    method AddSdf(f: Field)
      requires Valid()
      modifies this`sdfs
      ensures Valid()
      ensures sdfs == old(sdfs) + [f]
    {
      sdfs := sdfs + [f];
    }

    /** `computeSDFSurfaces`: replaces the samples with the whole-world lattice scan. */
    method ComputeSdfSurfaces()
      requires Valid()
      modifies this`sdfParticles
      ensures Valid()
      ensures Sampling.Tracks(2.0 * radius, Sampling.WorldCells(sdfs, radius, minBounds, maxBounds), sdfParticles)
    {
      sdfParticles := Sampling.ComputeSurfaces(sdfs, radius, minBounds, maxBounds);
    }

    /** `addSDFParticles`: copies at most `MaxSdfParticles` samples, nothing for none. */
    method AddSdfParticles()
      requires Valid()
      modifies this`trace
      ensures Valid()
      ensures trace == old(trace) + UploadPasses(|sdfParticles|)
    {
      if |sdfParticles| == 0 {
        return;
      }
      var limit := if |sdfParticles| <= MaxSdfParticles then |sdfParticles| else MaxSdfParticles;
      trace := trace + [UploadSdf(limit)];
    }

    /** `generateParticlesLocal`: replaces the samples with the local scan around `positions`. */
    method GenerateParticlesLocal(positions: seq<Float4>)
      requires Valid()
      modifies this`sdfParticles
      ensures Valid()
      ensures LocalSamples(sdfParticles, sdfs, radius, minBounds, maxBounds, positions)
    {
      sdfParticles := [];
      var samples := LocalScan.GenerateLocal(sdfs, radius, minBounds, maxBounds, positions);
      if |samples| > 0 {
        sdfParticles := samples;
      }
    }

    /**
     * `prepareScene`: with precomputation and at least one field, the
     * world scan, the capped copy, and the sort launches on the full count.
     */
    method PrepareScene()
      requires Valid()
      modifies this`sdfParticles, this`trace
      ensures Valid()
      ensures precomputation && |sdfs| > 0 ==>
                Sampling.Tracks(2.0 * radius, Sampling.WorldCells(sdfs, radius, minBounds, maxBounds), sdfParticles) &&
                trace == old(trace) + UploadPasses(|sdfParticles|) + SdfSortPasses(|sdfParticles|)
      ensures !(precomputation && |sdfs| > 0) ==> sdfParticles == old(sdfParticles) && trace == old(trace)
    {
      if precomputation && |sdfs| > 0 {
        ComputeSdfSurfaces();
        AddSdfParticles();
        trace := trace + SdfSortPasses(|sdfParticles|);
      }
    }

    // -------------------------------------------------------------------
    // Frames

    /** The solver loop: `solverIterations` rounds in the fixed order. */
    method SolverLoop(n: nat)
      requires Valid()
      modifies this`trace
      ensures Valid()
      ensures trace == old(trace) + SolverRounds(n, |sdfParticles|, solverIterations)
    {
      for i := 0 to solverIterations
        invariant trace == old(trace) + SolverRounds(n, |sdfParticles|, i)
      {
        trace := trace + SolverRound(n, |sdfParticles|);
      }
    }

    /**
     * The launches of a frame over a non-empty store, between the early
     * return and the drain; `deltaTime` is the clamped step.
     */
    method RunPasses(dt: real, deltaTime: real, positions: seq<Float4>)
      requires Valid() && |particles| > 0 && |positions| == |particles| && deltaTime == ClampStep(dt)
      modifies this`sdfParticles, this`trace
      ensures Valid()
      ensures trace == old(trace) + FramePasses(dt, |particles|, precomputation, |sdfParticles|, solverIterations)
      ensures precomputation ==> sdfParticles == old(sdfParticles)
      ensures !precomputation ==> LocalSamples(sdfParticles, sdfs, radius, minBounds, maxBounds, positions)
    {
      var n := |particles|;
      ghost var t0 := trace;
      trace := trace + [Integrate(deltaTime, n)];
      ghost var t1 := trace;
      SdfFrame(positions);
      ghost var sdf := if precomputation then [] else SdfFramePasses(|sdfParticles|);
      SolverLoop(n);
      trace := trace + [CalcVelocity(deltaTime, n)];
      ghost var rounds := SolverRounds(n, |sdfParticles|, solverIterations);
      SeqAssoc(t0, [Integrate(deltaTime, n)], sdf, rounds, [CalcVelocity(deltaTime, n)]);
    }

    /** The SDF part of a frame: without precomputation, the local scan, the capped copy and the sort launches. */
    method SdfFrame(positions: seq<Float4>)
      requires Valid()
      modifies this`sdfParticles, this`trace
      ensures Valid()
      ensures trace == old(trace) + (if precomputation then [] else SdfFramePasses(|sdfParticles|))
      ensures precomputation ==> sdfParticles == old(sdfParticles)
      ensures !precomputation ==> LocalSamples(sdfParticles, sdfs, radius, minBounds, maxBounds, positions)
    {
      if !precomputation {
        GenerateParticlesLocal(positions);
        UploadAndSort();
      }
    }

    /** The capped copy of the samples, then the sort launches unless there are none. */
    method UploadAndSort()
      requires Valid()
      modifies this`trace
      ensures Valid()
      ensures trace == old(trace) + SdfFramePasses(|sdfParticles|)
    {
      ghost var t0 := trace;
      AddSdfParticles();
      if |sdfParticles| > 0 {
        trace := trace + SdfSortPasses(|sdfParticles|);
        assert trace == t0 + (UploadPasses(|sdfParticles|) + SdfSortPasses(|sdfParticles|));
      } else {
        assert trace == t0 + [];
      }
    }

    /**
     * `update`: one frame. `positions` are the particle positions the
     * integration kernel leaves, which the local SDF scan reads back.
     */
    method Update(dt: real, positions: seq<Float4>)
      requires Valid() && |positions| == |particles|
      modifies this`particles, this`particlesToAdd, this`fluidsToAdd, this`colorIndex, this`colors,
               this`sdfParticles, this`iterations, this`trace
      ensures Valid()
      ensures particles == Drain(old(particles), old(particlesToAdd), old(fluidsToAdd), maxParticles)
      ensures particlesToAdd == [] && fluidsToAdd == []
      ensures colorIndex ==
              old(colorIndex) + DrainGroups(old(particles), old(particlesToAdd), old(fluidsToAdd), maxParticles)
      ensures colors == old(colors) + DrainColors(old(fluidsToAdd))
      ensures |old(particles)| == 0 ==>
                trace == old(trace) && iterations == old(iterations) && sdfParticles == old(sdfParticles)
      ensures |old(particles)| > 0 ==>
                iterations == old(iterations) + 1 &&
                trace == old(trace) + FramePasses(dt, |old(particles)|, precomputation, |sdfParticles|, solverIterations)
      ensures |old(particles)| > 0 && precomputation ==> sdfParticles == old(sdfParticles)
      ensures |old(particles)| > 0 && !precomputation ==>
                LocalSamples(sdfParticles, sdfs, radius, minBounds, maxBounds, positions)
    {
      var deltaTime := ClampStep(dt);
      if |particles| == 0 {
        AddNewStuff();
        return;
      }
      RunPasses(dt, deltaTime, positions);
      iterations := iterations + 1;
      AddNewStuff();
    }
  }
}
