# Position-based particle system: host-side model

This project models the host side of `ParticleSystem`, a GPU particle simulator
in which fluids, rigid bodies, ropes, cloth and deformable cubes are all
particles. They are coupled by distance and point constraints and collide with
scene geometry described by signed distance fields (SDFs). The model covers:

- **The particle store.** Particles sit in a fixed-capacity store (`m_maxParticles`).
  Single inserts are dropped when the store is full. Batch inserts are taken all or
  nothing, and a batch that would exactly fill the store is refused.
- **The two request queues.** One holds shots, queued as (position, velocity|mass)
  pairs. The other holds fluid particles, queued as (position|mass, colour|density)
  pairs. Both are drained at the end of every frame, shots first, in FIFO order.
- **Colour groups and rigid groups.** The colour-group log is two parallel vectors,
  `m_colorIndex` and `m_colors`. The rigid-group counter `m_rigidIndex` gives every
  rope, cloth and sphere its own rigid phase.
- **The shape builders.** These are the fluid block, solid block, horizontal cloth,
  rope, static sphere and deformable cube. Each is modelled with the exact positions,
  constraint lists, counts and index arithmetic of its loops.
- **The SDF value type.** An SDF is a function with an offset, plus a finite-difference
  gradient and three combinators.
- **The two ways SDF surface samples are produced.** One is a precomputed scan of the
  whole world lattice. The other is a per-frame local scan around every particle, which
  collects points in a hash set keyed by `Float4Hash` and compared by `Float4Comparator`.
  Both are followed by a copy capped at 45913 samples.
- **The frame driver (`update`).** It clamps the step, returns early on an empty
  store, then runs integration, the optional local SDF scan, the solver iterations
  and the velocity update. It ends with the drain.

The CUDA kernels are not modelled. Each kernel launch is recorded as a `Pass` event,
with the particle counts it is handed, in the `trace` field of the class. Floats are
exact reals. Where the code's unsigned 32-bit arithmetic makes a difference, it is
written out (the cloth sizing below).

Some behaviours of the code are kept as written and stated as lemmas.

- `intersect` takes the pointwise minimum of the two fields and `unite` the maximum.
  Under the code's "negative is inside" reading, `intersect` is therefore inside where
  *either* operand is inside (`IntersectInsideEither`).
- The combinators capture the raw functions, so any offset on an operand, or on the
  result, is lost (`CombinatorDropsOffset`, `CombinatorIgnoresOperandOffsets`).
- `alignToGrid` rounds only the lower corner of the box to the lattice, up. The upper
  corner is left untouched (`Sampling.AlignToGrid`).
- The SDF hashing and sorting launches are handed the full sample count, even above
  the copy cap (`SdfKernelsSeeUncappedCount`).

Modules:

| file | module | contents |
|---|---|---|
| geometry.dfy | Geometry | vectors, `ceil`/`(int)` truncation, lattice alignment |
| sdf.dfy | Sdf | `SignedDistanceField` |
| particles.dfy | Particles | particle records, phases, palette, queue encoding, capped appends |
| shapes.dfy | Shapes | builder loops: rope, cloth, cube, blocks, sphere |
| sampling.dfy | Sampling | `alignToGrid`, `computeSDFSurfaces` and its scan order |
| local_scan.dfy | LocalScan | `generateParticlesLocal`, `Float4Hash`, `Float4Comparator` |
| particle_system.dfy | ParticleSim | class `ParticleSystem`: state, inserts, drain, builders, frame |

## Model

| member | source | states |
|---|---|---|
| `Geometry.Trunc` | src/particlesystem.cpp:424 | the `(int)` conversion of a builder's count: truncation toward zero, within one of its argument on the same side of zero |
| `Geometry.Ceil` | src/particlesystem.cpp:927-938 | `ceilf`: the least integer not below its argument |
| `Sdf.FromFunction` | src/sdf.cpp:12-16 | a field built from a function alone evaluates to that function everywhere (zero offset) |
| `Sdf.WithOffset` | src/sdf.cpp:18-27 | a field with an offset evaluates `f(p - offset)` everywhere |
| `Sdf.Field.Gradient` | src/sdf.cpp:29-37 | the central-difference step is proportional to `p`, so a zero coordinate yields a zero gradient component |
| `Sdf.Field.Intersect` | src/sdf.cpp:40-46 | the result has no offset and is the pointwise minimum of the operands' raw functions |
| `Sdf.Field.Unite` | src/sdf.cpp:48-54 | the result has no offset and is the pointwise maximum of the raw functions |
| `Sdf.Field.Difference` | src/sdf.cpp:56-62 | the result has no offset and is `max(f1, -f2)` of the raw functions |
| `Sdf.CombinatorAlgebra` | src/sdf.cpp:40-62 | on operands without offset, the combinators are min, max and max-with-negation of the operands' evaluations |
| `Sdf.CentredEvaluateIsSemantic` | src/sdf.cpp:24-62 | a field tree with no offsets anywhere evaluates to the min/max algebra of its leaves |
| `Sdf.CombinatorDropsOffset` | src/sdf.cpp:40-46 | a field with offset (1,0,0) intersected with itself evaluates differently from the field: the offset is lost |
| `Sdf.CombinatorIgnoresOperandOffsets` | src/sdf.cpp:40-62 | combining two leaves gives the same result whatever their offsets |
| `Sdf.IntersectInsideEither` | src/sdf.cpp:40-46 | `intersect` is negative exactly where either operand is negative |
| `Sdf.GradientOfPlane` | src/sdf.cpp:29-37 | for the linear field `k*x` the x component of the gradient is `k * StepScale * p.x`, `StepScale` standing for `sqrt(EPSILON)` |
| `Particles.PaletteColor` | src/particlesystem.h:13-21 | `colors[rand() % numColors]` with `w = 1` is one of the eight palette colours |
| `Particles.ShotQueueRoundTrip` | src/particlesystem.cpp:357-367 | appending an encoded shot keeps the queue whole and decodes to the old shots plus that shot (density 1.5, SOLID, at rest w = 0) |
| `Particles.FluidQueueRoundTrip` | src/particlesystem.cpp:411-415 | appending an encoded fluid keeps the queue whole and decodes to the old particles plus that particle (velocity (0,-1,0), FLUID) |
| `Particles.ShotQueuePop` | src/particlesystem.cpp:324-331 | popping the front pair yields the first queued shot and leaves the rest of the queue decoding to the rest |
| `Particles.FluidQueuePop` | src/particlesystem.cpp:343-350 | popping the front pair yields the first queued fluid particle and leaves the rest decoding to the rest |
| `Particles.AppendCapped` | src/particlesystem.cpp:370-392 | repeated single inserts keep the store as a prefix, append the new particles in order, and stop exactly at capacity |
| `Particles.AppendCappedSnoc` | src/particlesystem.cpp:370-392 | one more single insert after a capped append is the capped append of the longer list |
| `Particles.Batch` | src/particlesystem.cpp:394-409 | the five parallel arrays zip into `n` particles, particle `k` taking position, velocity, inverse mass, density and phase from entry `k` of each array |
| `Shapes.RopeArrays` | src/particlesystem.cpp:631-677 | `numLinks + 1` positions `start + i*spacing`, and `numLinks` links joining particles `startI+k` and `startI+k+1` at distance `dist` |
| `Shapes.ClothSizingAgrees` | src/particlesystem.cpp:538-543 | for a non-empty sheet, the unsigned sizing formulas equal the counts the loop writes, `2*cx*cy - cx - cy` links |
| `Shapes.ClothSizingWrapsOnEmptyRow` | src/particlesystem.cpp:538-543 | with zero columns and five rows, `numDists` wraps to 4294967291 and `numPoints` is 5; with three columns and zero rows, `numDists` wraps to 4294967293 and, holding edges, `numPoints` is 6; in both the loop writes nothing |
| `Shapes.ClothArrays` | src/particlesystem.cpp:526-615 | a row-major `cx*cy` sheet at `(ll.x + x*spacing.x, spacing.y, ll.y + z*spacing.z)`; every link joins horizontal or vertical neighbours of the sheet; the anchor count is the corrected sizing; every anchor pins a sheet particle at its position; without `holdEdges` the anchors are the row starts |
| `Shapes.CubePositions` | src/particlesystem.cpp:959-973 | 27 positions at `position + (x,y,z)*d` for x, y, z in {-1,0,1}, at index `9(z+1)+3(y+1)+(x+1)` |
| `Shapes.CubeLinks` | src/particlesystem.cpp:985-1009 | 54 links, each joining two cube particles that are neighbours along one axis at distance `d`, in strictly increasing emission order (so no link twice) |
| `Shapes.GridPositions` | src/particlesystem.cpp:434-456 | the `cx*cy*cz` block points in z-y-x order; a point is listed iff it is a lattice point of the block |
| `Shapes.GridPointsInBox` | src/particlesystem.cpp:424-447 | every block point lies in the half-open box `[ll, ur)` |
| `Shapes.SpherePositions` | src/particlesystem.cpp:694-728 | the kept points are the block points, in scan order, strictly inside the sphere; each kept point is pinned at its own position with consecutive indices from `startI` |
| `Sampling.FirstNear` | src/particlesystem.cpp:808-816 | the early-exit loop over the fields reports a hit iff some field has `abs(evaluate(p)) <= r` |
| `Sampling.AlignToGrid` | src/particlesystem.cpp:927-938 | the lower corner becomes the least lattice coordinate not below it on each axis; the upper corner is unchanged |
| `Sampling.AlignedScanBox` | src/particlesystem.cpp:797-805 | scanning from the aligned lower corner in steps of `2r` visits exactly the lattice cells of the box |
| `Sampling.ComputeSurfaces` | src/particlesystem.cpp:791-824 | the samples are the kept lattice cells of the shifted world box, in x-y-z scan order |
| `Sampling.WorldSampleSound` | src/particlesystem.cpp:791-824 | every sample has `w = 1`, lies within `r` of some field's zero set and inside the shifted world box |
| `Sampling.WorldSamplesComplete` | src/particlesystem.cpp:791-824 | a lattice point is a sample iff it is in the shifted world box and near some field |
| `Sampling.WorldSamplesDistinct` | src/particlesystem.cpp:791-824 | no sample appears twice |
| `LocalScan.LocalColumn` | src/particlesystem.cpp:898-906 | the y column inserts its first near point, or nothing, and stops there |
| `LocalScan.BoxColumnUnique` | src/particlesystem.cpp:894-908 | within one scanned box, two inserted points with equal x and z are the same point |
| `LocalScan.BoxPointSound` | src/particlesystem.cpp:894-908 | every inserted point has `w = 1`, is near the field and is a lattice point of the box |
| `LocalScan.LocalSampleSound` | src/particlesystem.cpp:862-925 | every local sample has `w = 1`, is near some field, lies inside the world bounds and within `4r` on each axis of some particle |
| `LocalScan.GenerateLocal` | src/particlesystem.cpp:862-925 | the samples are the scanned point set, each exactly once |
| `LocalScan.Float4Hash` | src/particlesystem.h:170-175 | the hash of a point is below `2 * 20000` |
| `LocalScan.HashIgnoresW` | src/particlesystem.h:163-176 | points differing only in `w` hash alike |
| `LocalScan.Float4Equal` | src/particlesystem.h:179-185 | the comparator holds iff all four coordinates are equal |
| `ParticleSim.ClampStep` | src/particlesystem.cpp:178 | the step is the smaller of the given step and 0.05 |
| `ParticleSim.UploadCount` | src/particlesystem.cpp:830 | the copied sample count is the whole set or 45913, whichever is smaller |
| `ParticleSim.SdfFrameShape` | src/particlesystem.cpp:201-218 | the SDF part of a frame is empty for no samples, else the copy of `min(m, 45913)` samples followed by hash, sort and reorder over all `m` |
| `ParticleSim.FrameShape` | src/particlesystem.cpp:171-307 | a frame integrates once with the clamped step, then the SDF passes exactly when not precomputed, then exactly `solverIterations` rounds of hash, sort, reorder, collide, fluids, world collision, distance and point constraints, and ends with the velocity update |
| `ParticleSim.SdfKernelsSeeUncappedCount` | src/particlesystem.cpp:207-218 | above 45913 samples, the copy is capped but the SDF hash launch gets the full count |
| `ParticleSim.AdmitAllOrNothing` | src/particlesystem.cpp:394-409 | a batch is taken whole or not at all, never overflows, and is refused iff `n + count >= max` |
| `ParticleSim.DrainInOrder` | src/particlesystem.cpp:310-354 | the drain keeps the store as a prefix, never exceeds capacity, and with room takes every queued shot and then every queued fluid in FIFO order |
| `ParticleSim.DrainGroupCoversFluids` | src/particlesystem.cpp:334-354 | the one colour group a fluid drain logs ends at the new store size and covers exactly the admitted fluid particles |
| `ParticleSim.ParticleSystem.constructor` | src/particlesystem.cpp:38-74 | an empty store, empty queues, logs and samples, rigid counter 0, with the given radius, capacity, bounds, iterations and precomputation flag (default true) |
| `ParticleSim.ParticleSystem.NumParticles` | src/particlesystem.h:52 | the store size |
| `ParticleSim.ParticleSystem.NumParticlesSdf` | src/particlesystem.h:53 | the whole sample count, at least the copied count |
| `ParticleSim.ParticleSystem.AddParticle` | src/particlesystem.cpp:370-392 | appends one particle with inverse mass `1/mass` unless the store is full |
| `ParticleSim.BatchesNeverFill` | src/particlesystem.cpp:394-409 | a store that is not full stays not full, and keeps its contents as a prefix, over any run of batch inserts |
| `ParticleSim.FilledBatchIsUniform` | src/particlesystem.cpp:457-462 | the arrays a builder fills (zero velocities, one inverse mass, density and phase) zip to particles at rest sharing those attributes |
| `ParticleSim.ParticleSystem.AddParticleMultiple` | src/particlesystem.cpp:394-409 | appends the zip of the first `n` array entries iff `n + count < max`, else nothing |
| `ParticleSim.ParticleSystem.AddUniform` | src/particlesystem.cpp:457-462 | a builder's fill of the attribute arrays followed by the batch insert adds its positions as particles at rest, all or nothing |
| `ParticleSim.ParticleSystem.SetParticleToAdd` | src/particlesystem.cpp:357-367 | queues the shot jittered in x and y, which decodes to one more SOLID particle, and logs the group `(n, n+1)` with a palette colour at once |
| `ParticleSim.ParticleSystem.SetFluidToAdd` | src/particlesystem.cpp:411-415 | queues one fluid particle, which decodes to one more FLUID particle; nothing is logged |
| `ParticleSim.ParticleSystem.AddParticles` | src/particlesystem.cpp:317-332 | the store becomes the capped append of the queued shots in order; the queue is emptied |
| `ParticleSim.ParticleSystem.AddFluids` | src/particlesystem.cpp:334-354 | the store becomes the capped append of the queued fluids; one group over the drained range is logged with the last queued colour, nothing for an empty queue |
| `ParticleSim.ParticleSystem.AddNewStuff` | src/particlesystem.cpp:310-314 | the end-of-frame drain: shots, then fluids, both queues emptied |
| `ParticleSim.ParticleSystem.AddFluid` | src/particlesystem.cpp:418-466 | the block at spacing `2.5r` as FLUID particles with inverse mass `1/mass`, all or nothing, and one group with the given colour |
| `ParticleSim.ParticleSystem.AddParticleGrid` | src/particlesystem.cpp:469-519 | the block at spacing `2.002r` as SOLID particles, all or nothing, and one group with a palette colour |
| `ParticleSim.ParticleSystem.AddHorizCloth` | src/particlesystem.cpp:522-629 | the sheet as RIGID particles of a new group, all or nothing; its anchors and links are registered even when the batch is refused; the rigid counter goes up by one |
| `ParticleSim.ParticleSystem.AddRope` | src/particlesystem.cpp:631-677 | the rope as RIGID particles of a new group, its chain of links, and one point constraint on the first particle iff `constrainStart` |
| `ParticleSim.ParticleSystem.AddStaticSphere` | src/particlesystem.cpp:679-748 | the block points strictly inside the sphere as RIGID particles with inverse mass 0.01; each is pinned where it stands; the rigid counter goes up by one; a reversed box keeps nothing but still logs a group and bumps the counter |
| `ParticleSim.ParticleSystem.AddDeformableCube` | src/particlesystem.cpp:941-1010 | 27 SOLID particles at the cube positions, all or nothing; 54 axis-neighbour links, each once; the rigid counter is untouched |
| `ParticleSim.ParticleSystem.AddSdf` | src/particlesystem.cpp:837-840 | appends the field |
| `ParticleSim.ParticleSystem.ComputeSdfSurfaces` | src/particlesystem.cpp:791-824 | replaces the samples with the world lattice scan |
| `ParticleSim.ParticleSystem.AddSdfParticles` | src/particlesystem.cpp:826-835 | nothing for no samples, else one copy of the capped count |
| `ParticleSim.ParticleSystem.GenerateParticlesLocal` | src/particlesystem.cpp:862-925 | replaces the samples with the distinct points of the local scan around the given positions |
| `ParticleSim.ParticleSystem.PrepareScene` | src/particlesystem.cpp:842-860 | with precomputation and a field, the world scan, the capped copy and the sort launches on the full count; otherwise nothing |
| `ParticleSim.ParticleSystem.Update` | src/particlesystem.cpp:171-307 | an empty store only drains; otherwise the frame's launches in order, one more frame counted, the local scan without precomputation, then the drain |

## Left out

- The CUDA kernels (integration, hashing, sorting, collision, constraint projection, velocity update) and all OpenGL/CUDA buffer work are not modelled. Their launches are `Pass` events carrying the counts they are handed.
- `ParticleSim.ParticleSystem.Update`: the positions the integration kernel leaves are a parameter, because they come from the GPU.
- `_init`, `_finalize`, `createVBO`, `setArray`, `resetGrid`, the grid size and the simulation parameters `m_params` are not modelled. They are buffer set-up and GPU parameters.
- `makePointConstraint` and `makeDistanceConstraint` are not modelled separately. The constraint lists are appended to directly.
- `m_numSDFParticles` is not modelled. It is written and never read; the sample count is the length of the sample list.
- `Sdf.Field.Gradient`: the step factor `(float) sqrt(EPSILON)` with `EPSILON = 0.001` is the decimal constant `StepScale = 0.0316227766`, not the float the code computes.
- Floats are exact reals. Rounding of the `x += diameter` loops and of `x * spacing`, `ceilf`/`floorf` on floats, and the `-0.0`/NaN cases of comparisons are not modelled.
- `LocalScan.GenerateLocal`: its each-point-once ensures holds for reals, not necessarily for the program. `alignToGrid` applies `ceilf` to a lower corner in `(-2r, 0)`, which gives `-0.0`, while `x += diameter` can reach `+0.0`. `Float4Comparator` calls the two equal, but `Float4Hash` hashes their bit patterns differently, so the program's set may hold one lattice point twice (src/particlesystem.cpp:887-892, 927-938).
- `rand() % numColors` becomes a parameter `rnd`. The `frand()` draws of `setParticleToAdd` become parameters `jx`, `jy` in [-1, 1].
- `ParticleSim.ParticleSystem.AddFluid`: the positions are the unjittered lattice. The code moves each coordinate by a `frand()` draw times 1% of the radius.
- `ParticleSim.ParticleSystem.AddParticleGrid`: models `addJitter == false`; with it set, each coordinate moves by up to 1% of the radius.
- `ParticleSim.ParticleSystem.AddDeformableCube`: models `addJitter == false`; with it set, each coordinate moves by up to 1% of the radius.
- `ParticleSim.ParticleSystem.AddParticle`: requires `mass != 0`, because `1/0` is float infinity and reals have none. The same holds for the other members that take a mass.
- `ParticleSim.ParticleSystem.AddFluid`: requires `ll <= ur` on every axis, and so do `AddParticleGrid` and `AddHorizCloth`. A reversed axis gives a negative count. With an odd number of reversed axes the array size is negative, and the stack arrays have no valid size. With two reversed axes the size is positive. The loops then write nothing, and `addParticleMultiple` appends that many uninitialised particles. The model has no value for uninitialised memory, so it leaves reversed axes out. This also excludes the harmless case of a reversed axis alongside an empty one. `AddStaticSphere` keeps its points in vectors and is modelled for reversed boxes too.
- `Shapes.GridCount`: requires `lo <= hi` and a positive spacing, for the same reason. `ParticleSim.LoopCount` clamps a reversed axis to zero iterations, as the loops do.
- `ParticleSim.ParticleSystem.constructor`: requires `radius > 0`. The code does not check it. Every scene passes 0.25. For `radius <= 0` the `x += diameter` loops of `computeSDFSurfaces` and `generateParticlesLocal` never end.
- `ParticleSim.ParticleSystem.AddStaticSphere`: requires `spacing > 0`. A zero spacing divides by zero in the count.
- `ParticleSim.ParticleSystem.AddRope`: `numLinks` is a natural number.
- Integer widths are not modelled, apart from the unsigned wrap-around of the cloth sizing. Overflow of `m_numParticles`, the indices and the element counts is not modelled.
- `LocalScan.Float4Hash`: the hash is taken over the IEEE bit patterns passed as parameters. The mapping from a real coordinate to its bit pattern is not modelled, so `Float4Hash` is not tied to `Float4Equal`. The 32-bit products and the signed-to-`size_t` conversion are written out, but only the range of the result is stated.
- The iteration order of `std::unordered_set` is not modelled. The local samples are stated as a duplicate-free list with the scanned point set as its members.
- The `TWOD` build variant is not modelled.
- `particleapp.cpp` (scene set-up, input, rendering) and `rendering/renderer.h` are not part of this model.

## Findings

| source | as written | input that shows it | evidently intended | confidence | as-written member | corrected member |
|---|---|---|---|---|---|---|
| src/particlesystem.cpp:538-545 | `numDists = (count.x-1)*(count.y-1) + count.x*count.y - 1` in `uint`, and `numPoints = count.y` or `2*(count.x+count.y)` | `ur.x - ll.x < spacing.x`, so `count.x = 0`, with `count.y = 5`: `numDists` wraps to 4294967291 and `numPoints` is 5. Likewise `count.y = 0` with `count.x = 3`: `numDists` wraps to `2^32 - 3` and, with `holdEdges`, `numPoints` is 6. In both cases the loop writes no particle, link or anchor (the stack arrays sized by them are huge or read uninitialised) | the constraint counts are those the loop writes: `2*cx*cy - cx - cy` links and, for an empty sheet, no anchors | not executed | `Shapes.ClothSizingWrapsOnEmptyRow` | `Shapes.ClothArrays` |
