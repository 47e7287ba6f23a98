/**
 * Values held by the particle store: per-particle attributes, constraints,
 * colour groups, and the two-entries-per-request encoding of the insertion
 * queues (`std::deque<float4>`).
 */
module Particles {
  import opened Geometry

  /** The material tag: SOLID, FLUID or RIGID + group. */
  datatype Phase = Solid | Fluid | Rigid(group: int)

  /** What one append writes for one particle: position, velocity, inverse mass, rest density, phase. */
  datatype Particle = Particle(pos: Float4, vel: Float4, invMass: real, density: real, phase: Phase)

  /** A distance constraint on the particle pair (i, j) with a rest length. */
  datatype DistanceConstraint = DistanceConstraint(i: int, j: int, rest: real)

  /** A point constraint pinning one particle to an anchor. */
  datatype PointConstraint = PointConstraint(index: int, anchor: Vec3)

  /** One entry of the colour-group log: the index range [start, end) (`int2`). */
  datatype ColorGroup = ColorGroup(start: int, end: int)

  /** The eight-entry colour table. */
  const Palette: seq<Vec3> := [
    Vec3(0.722, 0.141, 0.447), Vec3(0.886, 0.455, 0.173),
    Vec3(0.110, 0.569, 0.478), Vec3(0.588, 0.824, 0.161),
    Vec3(0.722, 0.267, 0.506), Vec3(0.831, 0.345, 0.031),
    Vec3(0.020, 0.533, 0.431), Vec3(0.506, 0.773, 0.027)]

  /** `make_float4(colors[rand() % numColors], 1)`, with the random draw as `rnd`. */
  function PaletteColor(rnd: nat): (c: Float4)
    ensures c.w == 1.0 && Xyz(c) in Palette
  {
    WithW(Palette[rnd % |Palette|], 1.0)
  }

  /** Rest density given to queued shots. */
  const ShotDensity: real := 1.5

  /** The two queue entries `setParticleToAdd` pushes: `(pos, 1)` then `(vel, mass)`. */
  function EncodeShot(pos: Vec3, vel: Vec3, mass: real): seq<Float4>
  {
    [WithW(pos, 1.0), WithW(vel, mass)]
  }

  /** The two queue entries `setFluidToAdd` pushes: `(pos, mass)` then `(color, density)`. */
  function EncodeFluid(pos: Vec3, color: Vec3, mass: real, density: real): seq<Float4>
  {
    [WithW(pos, mass), WithW(color, density)]
  }

  /** The particle `addParticles` makes of one (pos, vel) pair: SOLID, density 1.5, mass `vel.w`. */
  function Shot(pos: Float4, vel: Float4): Particle
    requires vel.w != 0.0
  {
    Particle(pos, WithW(Xyz(vel), 0.0), 1.0 / vel.w, ShotDensity, Solid)
  }

  /** The particle `addFluids` makes of one (pos, color) pair: FLUID, mass `pos.w`, density `color.w`. */
  function QueuedFluid(pos: Float4, color: Float4): Particle
    requires pos.w != 0.0
  {
    Particle(WithW(Xyz(pos), 1.0), Float4(0.0, -1.0, 0.0, 0.0), 1.0 / pos.w, color.w, Fluid)
  }

  /** The shot queue holds whole pairs, and every queued mass (the second entry's `w`) is non-zero. */
  predicate ShotQueue(q: seq<Float4>)
  {
    |q| % 2 == 0 && forall k | 0 <= k < |q| && k % 2 == 1 :: q[k].w != 0.0
  }

  /** The fluid queue holds whole pairs, and every queued mass (the first entry's `w`) is non-zero. */
  predicate FluidQueue(q: seq<Float4>)
  {
    |q| % 2 == 0 && forall k | 0 <= k < |q| && k % 2 == 0 :: q[k].w != 0.0
  }

  /** The shots a queue stands for, one per pair, in FIFO order. */
  function DecodeShots(q: seq<Float4>): (ps: seq<Particle>)
    requires ShotQueue(q)
    ensures |ps| == |q| / 2
  {
    seq(|q| / 2, k requires 0 <= k < |q| / 2 => Shot(q[2 * k], q[2 * k + 1]))
  }

  /** The fluid particles a queue stands for, one per pair, in FIFO order. */
  function DecodeFluids(q: seq<Float4>): (ps: seq<Particle>)
    requires FluidQueue(q)
    ensures |ps| == |q| / 2
  {
    seq(|q| / 2, k requires 0 <= k < |q| / 2 => QueuedFluid(q[2 * k], q[2 * k + 1]))
  }

  /** Queuing one shot adds exactly that shot at the back of the decoded queue. */
  lemma ShotQueueRoundTrip(q: seq<Float4>, pos: Vec3, vel: Vec3, mass: real)
    requires ShotQueue(q) && mass != 0.0
    ensures ShotQueue(q + EncodeShot(pos, vel, mass))
    ensures DecodeShots(q + EncodeShot(pos, vel, mass)) ==
            DecodeShots(q) + [Particle(WithW(pos, 1.0), WithW(vel, 0.0), 1.0 / mass, ShotDensity, Solid)]
  {
    var q' := q + EncodeShot(pos, vel, mass);
    assert |q'| / 2 == |q| / 2 + 1;
    assert Xyz(WithW(vel, mass)) == vel;
    var a := DecodeShots(q');
    var b := DecodeShots(q) + [Particle(WithW(pos, 1.0), WithW(vel, 0.0), 1.0 / mass, ShotDensity, Solid)];
    forall k | 0 <= k < |a| ensures a[k] == b[k] {
      if k < |q| / 2 {
        assert q'[2 * k] == q[2 * k] && q'[2 * k + 1] == q[2 * k + 1];
      } else {
        assert q'[2 * k] == WithW(pos, 1.0) && q'[2 * k + 1] == WithW(vel, mass);
      }
    }
  }

  /** Queuing one fluid particle adds exactly that particle at the back of the decoded queue. */
  lemma FluidQueueRoundTrip(q: seq<Float4>, pos: Vec3, color: Vec3, mass: real, density: real)
    requires FluidQueue(q) && mass != 0.0
    ensures FluidQueue(q + EncodeFluid(pos, color, mass, density))
    ensures DecodeFluids(q + EncodeFluid(pos, color, mass, density)) ==
            DecodeFluids(q) + [Particle(WithW(pos, 1.0), Float4(0.0, -1.0, 0.0, 0.0), 1.0 / mass, density, Fluid)]
  {
    var q' := q + EncodeFluid(pos, color, mass, density);
    assert |q'| / 2 == |q| / 2 + 1;
    assert Xyz(WithW(pos, mass)) == pos;
    var a := DecodeFluids(q');
    var b := DecodeFluids(q) + [Particle(WithW(pos, 1.0), Float4(0.0, -1.0, 0.0, 0.0), 1.0 / mass, density, Fluid)];
    forall k | 0 <= k < |a| ensures a[k] == b[k] {
      if k < |q| / 2 {
        assert q'[2 * k] == q[2 * k] && q'[2 * k + 1] == q[2 * k + 1];
      } else {
        assert q'[2 * k] == WithW(pos, mass) && q'[2 * k + 1] == WithW(color, density);
      }
    }
  }

  /** Popping the front pair of a shot queue leaves a shot queue, whose decoding lacks exactly the front shot. */
  lemma ShotQueuePop(q: seq<Float4>)
    requires ShotQueue(q) && |q| >= 2
    ensures q[1].w != 0.0 && ShotQueue(q[2..])
    ensures DecodeShots(q) == [Shot(q[0], q[1])] + DecodeShots(q[2..])
  {
    var t := q[2..];
    forall k | 0 <= k < |t| && k % 2 == 1 ensures t[k].w != 0.0 {
      assert t[k] == q[k + 2];
    }
    var a := DecodeShots(q);
    var b := [Shot(q[0], q[1])] + DecodeShots(t);
    forall k | 0 <= k < |a| ensures a[k] == b[k] {
      if k > 0 {
        assert t[2 * (k - 1)] == q[2 * k] && t[2 * (k - 1) + 1] == q[2 * k + 1];
      }
    }
  }

  /** Popping the front pair of a fluid queue leaves a fluid queue, whose decoding lacks exactly the front particle. */
  lemma FluidQueuePop(q: seq<Float4>)
    requires FluidQueue(q) && |q| >= 2
    ensures q[0].w != 0.0 && FluidQueue(q[2..])
    ensures DecodeFluids(q) == [QueuedFluid(q[0], q[1])] + DecodeFluids(q[2..])
  {
    var t := q[2..];
    forall k | 0 <= k < |t| && k % 2 == 0 ensures t[k].w != 0.0 {
      assert t[k] == q[k + 2];
    }
    var a := DecodeFluids(q);
    var b := [QueuedFluid(q[0], q[1])] + DecodeFluids(t);
    forall k | 0 <= k < |a| ensures a[k] == b[k] {
      if k > 0 {
        assert t[2 * (k - 1)] == q[2 * k] && t[2 * (k - 1) + 1] == q[2 * k + 1];
      }
    }
  }

  /**
   * The outcome of single inserts, one after another, into a store of the
   * given capacity: each is appended while there is room and dropped after.
   */
  function AppendCapped(ps: seq<Particle>, news: seq<Particle>, cap: nat): (r: seq<Particle>)
    requires |ps| <= cap
    ensures |r| <= cap
    ensures |r| == if |ps| + |news| <= cap then |ps| + |news| else cap
    ensures r[..|ps|] == ps && r[|ps|..] == news[..|r| - |ps|]
  {
    var room := cap - |ps|;
    if |news| <= room then ps + news else ps + news[..room]
  }

  /** One more single insert: appended if there is room, dropped otherwise. */
  function InsertOne(ps: seq<Particle>, p: Particle, cap: nat): seq<Particle>
  {
    if |ps| == cap then ps else ps + [p]
  }

  /** Inserting the requests one at a time is the same as the capped append of all of them. */
  lemma AppendCappedSnoc(ps: seq<Particle>, news: seq<Particle>, p: Particle, cap: nat)
    requires |ps| <= cap
    ensures |AppendCapped(ps, news, cap)| <= cap
    ensures InsertOne(AppendCapped(ps, news, cap), p, cap) == AppendCapped(ps, news + [p], cap)
  {
    var room := cap - |ps|;
    if |news| < room {
      assert (news + [p])[..|news| + 1] == news + [p];
    } else if |news| == room {
      assert (news + [p])[..room] == news;
    } else {
      assert (news + [p])[..room] == news[..room];
    }
  }

  /** `addParticleMultiple`'s admission test: a batch is taken only if `count + n < max`. */
  predicate BatchAccepted(count: nat, n: nat, max: nat)
  {
    count + n < max
  }

  /** The particles `addParticleMultiple` appends: the first n entries of its five parallel arrays. */
  function Batch(pos: seq<Float4>, vel: seq<Float4>, w: seq<real>, ro: seq<real>, phase: seq<Phase>, n: nat): (ps: seq<Particle>)
    requires n <= |pos| && n <= |vel| && n <= |w| && n <= |ro| && n <= |phase|
    ensures |ps| == n
    ensures forall k | 0 <= k < n ::
              ps[k].pos == pos[k] && ps[k].vel == vel[k] && ps[k].invMass == w[k] &&
              ps[k].density == ro[k] && ps[k].phase == phase[k]
  {
    seq(n, k requires 0 <= k < n => Particle(pos[k], vel[k], w[k], ro[k], phase[k]))
  }
}
