/**
 * The local SDF scan (`generateParticlesLocal`).
 *
 * For every particle `p` and every field whose value at `p` is at most
 * `4r` (a signed test: a particle deep inside a solid passes it), the scan
 * visits the lattice box `[max(minBounds, p - 4r), min(maxBounds, p + 4r))`,
 * z outermost, then x, then y. In each (z, x) column it inserts the first y
 * point the field is near into a hash set and leaves the column. At the end
 * the set's elements, in the set's own order, become the samples.
 */
module LocalScan {
  import opened Geometry
  import opened Sdf
  import opened Sampling

  /** `MAX_RANGE`: the reach of the gate and the half-width of the box. */
  function MaxRange(r: real): real { 4.0 * r }

  /** The field is near the lattice point of cell `c`. */
  predicate NearCell(f: Field, r: real, w: real, c: IVec3)
  {
    Near(f, Xyz(LatticePoint(w, c)), r)
  }

  // ---------------------------------------------------------------------
  // One column: the y loop with its `break`

  /** The first y index among the first `n` of column (x, z) whose point the field is near. */
  function ColumnHit(f: Field, r: real, w: real, x: int, z: int, y: Span, n: nat): Option<int>
  {
    if n == 0 then None
    else match ColumnHit(f, r, w, x, z, y, n - 1)
      case Some(j) => Some(j)
      case None => if NearCell(f, r, w, IVec3(x, y.first + n - 1, z)) then Some(y.first + n - 1) else None
  }

  /** `ColumnHit` finds exactly the first near point of the column, or reports that there is none. */
  lemma {:induction false} ColumnHitFirst(f: Field, r: real, w: real, x: int, z: int, y: Span, n: nat)
    ensures ColumnHit(f, r, w, x, z, y, n).None? <==>
            forall j | y.first <= j < y.first + n :: !NearCell(f, r, w, IVec3(x, j, z))
    ensures ColumnHit(f, r, w, x, z, y, n).Some? ==>
            var j := ColumnHit(f, r, w, x, z, y, n).value;
            y.first <= j < y.first + n && NearCell(f, r, w, IVec3(x, j, z)) &&
            forall j' | y.first <= j' < j :: !NearCell(f, r, w, IVec3(x, j', z))
  {
    if n > 0 {
      ColumnHitFirst(f, r, w, x, z, y, n - 1);
    }
  }

  /** Once a hit is found, scanning further does not change it. */
  lemma {:induction false} ColumnHitStable(f: Field, r: real, w: real, x: int, z: int, y: Span, n: nat, m: nat)
    requires n <= m && ColumnHit(f, r, w, x, z, y, n).Some?
    ensures ColumnHit(f, r, w, x, z, y, m) == ColumnHit(f, r, w, x, z, y, n)
  {
    if n < m {
      ColumnHitStable(f, r, w, x, z, y, n, m - 1);
    }
  }

  /** What a whole column inserts: its first near point, if any. */
  function HitPoint(f: Field, r: real, w: real, x: int, z: int, y: Span): set<Float4>
  {
    match ColumnHit(f, r, w, x, z, y, y.count)
    case None => {}
    case Some(j) => {LatticePoint(w, IVec3(x, j, z))}
  }

  /** The innermost (y) loop: insert the first near point of column (x, z) and stop. */
  method LocalColumn(f: Field, r: real, w: real, x: int, z: int, y: Span, particles: set<Float4>)
    returns (particles': set<Float4>)
    ensures particles' == particles + HitPoint(f, r, w, x, z, y)
  {
    particles' := particles;
    for n := 0 to y.count
      invariant ColumnHit(f, r, w, x, z, y, n).None?
      invariant particles' == particles
    {
      var cell := IVec3(x, y.first + n, z);
      if Near(f, Xyz(LatticePoint(w, cell)), r) {
        particles' := particles + {LatticePoint(w, cell)};
        ColumnHitStable(f, r, w, x, z, y, n + 1, y.count);
        break;
      }
    }
  }

  // ---------------------------------------------------------------------
  // One box: the z and x loops

  /** The points the x loop of plane `z` inserts, after its first `n` columns. */
  function RowPoints(f: Field, r: real, w: real, box: Box, z: int, n: nat): set<Float4>
  {
    if n == 0 then {} else RowPoints(f, r, w, box, z, n - 1) + HitPoint(f, r, w, box.x.first + n - 1, z, box.y)
  }

  /** The points the z loop inserts, after its first `n` planes. */
  function BoxPoints(f: Field, r: real, w: real, box: Box, n: nat): set<Float4>
  {
    if n == 0 then {} else BoxPoints(f, r, w, box, n - 1) + RowPoints(f, r, w, box, box.z.first + n - 1, box.x.count)
  }

  /** Adding one more part to a union that extends `s0` still extends `s0`. */
  lemma UnionPart(s0: set<Float4>, p: set<Float4>, q: set<Float4>, u: set<Float4>, v: set<Float4>)
    requires u == s0 + p && v == u + q
    ensures v == s0 + (p + q)
  {
  }

  lemma RowPointsNext(f: Field, r: real, w: real, box: Box, z: int, a: nat)
    ensures RowPoints(f, r, w, box, z, a + 1) == RowPoints(f, r, w, box, z, a) + HitPoint(f, r, w, box.x.first + a, z, box.y)
  {
  }

  lemma BoxPointsNext(f: Field, r: real, w: real, box: Box, c: nat)
    ensures BoxPoints(f, r, w, box, c + 1) == BoxPoints(f, r, w, box, c) + RowPoints(f, r, w, box, box.z.first + c, box.x.count)
  {
  }

  /** The middle (x) loop of plane `z`. */
  method LocalRow(f: Field, r: real, w: real, box: Box, z: int, particles: set<Float4>)
    returns (particles': set<Float4>)
    ensures particles' == particles + RowPoints(f, r, w, box, z, box.x.count)
  {
    particles' := particles;
    for a := 0 to box.x.count
      invariant particles' == particles + RowPoints(f, r, w, box, z, a)
    {
      ghost var before := particles';
      particles' := LocalColumn(f, r, w, box.x.first + a, z, box.y, particles');
      RowPointsNext(f, r, w, box, z, a);
      UnionPart(particles, RowPoints(f, r, w, box, z, a), HitPoint(f, r, w, box.x.first + a, z, box.y), before, particles');
    }
  }

  /** The outer (z) loop over the box. */
  method LocalBox(f: Field, r: real, w: real, box: Box, particles: set<Float4>)
    returns (particles': set<Float4>)
    ensures particles' == particles + BoxPoints(f, r, w, box, box.z.count)
  {
    particles' := particles;
    for c := 0 to box.z.count
      invariant particles' == particles + BoxPoints(f, r, w, box, c)
    {
      ghost var before := particles';
      particles' := LocalRow(f, r, w, box, box.z.first + c, particles');
      BoxPointsNext(f, r, w, box, c);
      UnionPart(particles, BoxPoints(f, r, w, box, c), RowPoints(f, r, w, box, box.z.first + c, box.x.count),
                before, particles');
    }
  }

  /** A point a box scan inserts is the first near point of its column. */
  lemma {:induction false} RowPointCell(f: Field, r: real, w: real, box: Box, z: int, n: nat, q: Float4)
    returns (c: IVec3)
    requires q in RowPoints(f, r, w, box, z, n)
    ensures q == LatticePoint(w, c) && c.z == z
    ensures box.x.first <= c.x < box.x.first + n
    ensures ColumnHit(f, r, w, c.x, z, box.y, box.y.count) == Some(c.y)
  {
    if q in RowPoints(f, r, w, box, z, n - 1) {
      c := RowPointCell(f, r, w, box, z, n - 1, q);
    } else {
      var x := box.x.first + n - 1;
      c := IVec3(x, ColumnHit(f, r, w, x, z, box.y, box.y.count).value, z);
    }
  }

  lemma {:induction false} BoxPointCell(f: Field, r: real, w: real, box: Box, n: nat, q: Float4)
    returns (c: IVec3)
    requires q in BoxPoints(f, r, w, box, n)
    ensures q == LatticePoint(w, c)
    ensures InSpan(box.x, c.x) && box.z.first <= c.z < box.z.first + n
    ensures ColumnHit(f, r, w, c.x, c.z, box.y, box.y.count) == Some(c.y)
  {
    if q in BoxPoints(f, r, w, box, n - 1) {
      c := BoxPointCell(f, r, w, box, n - 1, q);
    } else {
      c := RowPointCell(f, r, w, box, box.z.first + n - 1, box.x.count, q);
    }
  }

  /** A box scan inserts at most one point per (z, x) column: the `break` leaves the column. */
  lemma BoxColumnUnique(f: Field, r: real, w: real, box: Box, q1: Float4, q2: Float4)
    requires w > 0.0
    requires q1 in BoxPoints(f, r, w, box, box.z.count) && q2 in BoxPoints(f, r, w, box, box.z.count)
    requires q1.x == q2.x && q1.z == q2.z
    ensures q1 == q2
  {
    var c1 := BoxPointCell(f, r, w, box, box.z.count, q1);
    var c2 := BoxPointCell(f, r, w, box, box.z.count, q2);
    SameColumn(w, c1, c2, q1, q2);
    assert c1.y == c2.y;
  }

  /** Two lattice points that agree in x and z lie in the same lattice column. */
  lemma SameColumn(w: real, c1: IVec3, c2: IVec3, q1: Float4, q2: Float4)
    requires w > 0.0 && q1 == LatticePoint(w, c1) && q2 == LatticePoint(w, c2)
    requires q1.x == q2.x && q1.z == q2.z
    ensures c1.x == c2.x && c1.z == c2.z
  {
    LatticeOrder(w, c1.x, c2.x);
    LatticeOrder(w, c1.z, c2.z);
  }

  /** A point a box scan inserts lies in the box, is a lattice point and the field is near it. */
  lemma BoxPointSound(f: Field, r: real, w: real, box: Box, q: Float4)
    requires q in BoxPoints(f, r, w, box, box.z.count)
    ensures q.w == 1.0 && Near(f, Xyz(q), r)
    ensures exists c :: q == LatticePoint(w, c) && InBox(box, c)
  {
    var c := BoxPointCell(f, r, w, box, box.z.count, q);
    ColumnHitFirst(f, r, w, c.x, c.z, box.y, box.y.count);
  }

  // ---------------------------------------------------------------------
  // One particle: the loop over the fields

  /** `minGrid` before alignment: the corner `p - 4r`, clamped from below by `minBounds`. */
  function AroundLo(minBounds: IVec3, p: Vec3, r: real): Vec3
  {
    var lo := ToVec3(minBounds);
    var d := MaxRange(r);
    Vec3(Max(lo.x, p.x - d), Max(lo.y, p.y - d), Max(lo.z, p.z - d))
  }

  /** `maxGrid`: the corner `p + 4r`, clamped from above by `maxBounds`. */
  function AroundHi(maxBounds: IVec3, p: Vec3, r: real): Vec3
  {
    var hi := ToVec3(maxBounds);
    var d := MaxRange(r);
    Vec3(Min(hi.x, p.x + d), Min(hi.y, p.y + d), Min(hi.z, p.z + d))
  }

  /** The index runs scanned around `p`. */
  function AroundBox(minBounds: IVec3, maxBounds: IVec3, p: Vec3, r: real): Box
    requires r > 0.0
  {
    ScanBox(AroundLo(minBounds, p, r), AroundHi(maxBounds, p, r), 2.0 * r)
  }

  /** What field `f` inserts around `p`: nothing unless it passes the gate. */
  function GatedPoints(f: Field, r: real, minBounds: IVec3, maxBounds: IVec3, p: Vec3): set<Float4>
    requires r > 0.0
  {
    var box := AroundBox(minBounds, maxBounds, p, r);
    if f.Evaluate(p) <= MaxRange(r) then BoxPoints(f, r, 2.0 * r, box, box.z.count) else {}
  }

  /** What the first `n` fields insert for the particle at `p`; the gate is signed. */
  function FieldPoints(sdfs: seq<Field>, r: real, minBounds: IVec3, maxBounds: IVec3, p: Vec3, n: nat): set<Float4>
    requires r > 0.0 && n <= |sdfs|
  {
    if n == 0 then {}
    else FieldPoints(sdfs, r, minBounds, maxBounds, p, n - 1) + GatedPoints(sdfs[n - 1], r, minBounds, maxBounds, p)
  }

  /** The body of the loop over the fields: the gate, the clamped and aligned box, and its scan. */
  method LocalField(f: Field, r: real, minBounds: IVec3, maxBounds: IVec3, p: Vec3, particles: set<Float4>)
    returns (particles': set<Float4>)
    requires r > 0.0
    ensures particles' == particles + GatedPoints(f, r, minBounds, maxBounds, p)
  {
    particles' := particles;
    if f.Evaluate(p) <= MaxRange(r) {
      var box := AlignedBox(2.0 * r, AroundLo(minBounds, p, r), AroundHi(maxBounds, p, r));
      particles' := LocalBox(f, r, 2.0 * r, box, particles);
    }
  }

  /** The loop over the fields for one particle at `p`. */
  method LocalParticle(sdfs: seq<Field>, r: real, minBounds: IVec3, maxBounds: IVec3, p: Vec3, particles: set<Float4>)
    returns (particles': set<Float4>)
    requires r > 0.0
    ensures particles' == particles + FieldPoints(sdfs, r, minBounds, maxBounds, p, |sdfs|)
  {
    particles' := particles;
    for n := 0 to |sdfs|
      invariant particles' == particles + FieldPoints(sdfs, r, minBounds, maxBounds, p, n)
    {
      ghost var before := particles';
      particles' := LocalField(sdfs[n], r, minBounds, maxBounds, p, particles');
      UnionPart(particles, FieldPoints(sdfs, r, minBounds, maxBounds, p, n),
                GatedPoints(sdfs[n], r, minBounds, maxBounds, p), before, particles');
    }
  }

  // ---------------------------------------------------------------------
  // All particles

  /** What the scan inserts for the first `m` particles, whose positions are `positions`. */
  function LocalPoints(sdfs: seq<Field>, r: real, minBounds: IVec3, maxBounds: IVec3,
                       positions: seq<Float4>, m: nat): set<Float4>
    requires r > 0.0 && m <= |positions|
  {
    if m == 0 then {}
    else LocalPoints(sdfs, r, minBounds, maxBounds, positions, m - 1) +
         FieldPoints(sdfs, r, minBounds, maxBounds, Xyz(positions[m - 1]), |sdfs|)
  }

  /** Where a point the fields insert around `p` comes from. */
  lemma {:induction false} FieldPointSource(sdfs: seq<Field>, r: real, minBounds: IVec3, maxBounds: IVec3,
                                            p: Vec3, m: nat, q: Float4)
    returns (n: nat, c: IVec3)
    requires r > 0.0 && m <= |sdfs| && q in FieldPoints(sdfs, r, minBounds, maxBounds, p, m)
    ensures n < m && sdfs[n].Evaluate(p) <= MaxRange(r)
    ensures q == LatticePoint(2.0 * r, c) && InBox(AroundBox(minBounds, maxBounds, p, r), c)
    ensures NearCell(sdfs[n], r, 2.0 * r, c)
  {
    if q in FieldPoints(sdfs, r, minBounds, maxBounds, p, m - 1) {
      n, c := FieldPointSource(sdfs, r, minBounds, maxBounds, p, m - 1, q);
    } else {
      n := m - 1;
      var box := AroundBox(minBounds, maxBounds, p, r);
      c := BoxPointCell(sdfs[n], r, 2.0 * r, box, box.z.count, q);
      ColumnHitFirst(sdfs[n], r, 2.0 * r, c.x, c.z, box.y, box.y.count);
    }
  }

  /** Where a point the scan inserts comes from: a particle, a field that passed the gate, a cell of its box. */
  lemma {:induction false} LocalPointSource(sdfs: seq<Field>, r: real, minBounds: IVec3, maxBounds: IVec3,
                                            positions: seq<Float4>, m: nat, q: Float4)
    returns (i: nat, n: nat, c: IVec3)
    requires r > 0.0 && m <= |positions| && q in LocalPoints(sdfs, r, minBounds, maxBounds, positions, m)
    ensures i < m && n < |sdfs| && sdfs[n].Evaluate(Xyz(positions[i])) <= MaxRange(r)
    ensures q == LatticePoint(2.0 * r, c) && InBox(AroundBox(minBounds, maxBounds, Xyz(positions[i]), r), c)
    ensures NearCell(sdfs[n], r, 2.0 * r, c)
  {
    if q in LocalPoints(sdfs, r, minBounds, maxBounds, positions, m - 1) {
      i, n, c := LocalPointSource(sdfs, r, minBounds, maxBounds, positions, m - 1, q);
    } else {
      i := m - 1;
      n, c := FieldPointSource(sdfs, r, minBounds, maxBounds, Xyz(positions[i]), |sdfs|, q);
    }
  }

  /** A cell of the box around `p` lies in the world box and within `4r` of `p`. */
  lemma AroundWithin(minBounds: IVec3, maxBounds: IVec3, p: Vec3, r: real, c: IVec3)
    requires r > 0.0 && InBox(AroundBox(minBounds, maxBounds, p, r), c)
    ensures Within(ToVec3(minBounds), ToVec3(maxBounds), LatticePoint(2.0 * r, c))
    ensures var d := Vec3(MaxRange(r), MaxRange(r), MaxRange(r));
            Within(Sub(p, d), Add(p, d), LatticePoint(2.0 * r, c))
  {
    ScanBoxExact(AroundLo(minBounds, p, r), AroundHi(maxBounds, p, r), 2.0 * r, c);
  }

  /**
   * Every point the local scan inserts is a lattice point `(x, y, z, 1)`
   * that some field is near, inside the world box `[minBounds, maxBounds)`,
   * and within `4r` of some particle on every axis.
   */
  lemma LocalSampleSound(sdfs: seq<Field>, r: real, minBounds: IVec3, maxBounds: IVec3,
                         positions: seq<Float4>, q: Float4)
    requires r > 0.0 && q in LocalPoints(sdfs, r, minBounds, maxBounds, positions, |positions|)
    ensures q.w == 1.0 && AnyNear(sdfs, Xyz(q), r)
    ensures Within(ToVec3(minBounds), ToVec3(maxBounds), q)
    ensures exists i | 0 <= i < |positions| ::
              var d := Vec3(MaxRange(r), MaxRange(r), MaxRange(r));
              Within(Sub(Xyz(positions[i]), d), Add(Xyz(positions[i]), d), q)
  {
    var i, n, c := LocalPointSource(sdfs, r, minBounds, maxBounds, positions, |positions|, q);
    AroundWithin(minBounds, maxBounds, Xyz(positions[i]), r, c);
    assert Near(sdfs[n], Xyz(q), r);
  }

  /** The elements of a set, each once, in some order (the order of an `unordered_set`). */
  method SetToSeq(s: set<Float4>) returns (q: seq<Float4>)
    ensures |q| == |s|
    ensures forall p :: p in q <==> p in s
    ensures forall a, b | 0 <= a < b < |q| :: q[a] != q[b]
  {
    q := [];
    var rest := s;
    while rest != {}
      invariant rest <= s
      invariant |q| + |rest| == |s|
      invariant forall p :: p in q <==> p in s && p !in rest
      invariant forall a, b | 0 <= a < b < |q| :: q[a] != q[b]
      decreases |rest|
    {
      var p :| p in rest;
      q := q + [p];
      rest := rest - {p};
    }
  }

  /**
   * `generateParticlesLocal`: scan around every particle, collect the hits
   * in a set, then copy the set's elements, if any, into the samples.
   */
  method GenerateLocal(sdfs: seq<Field>, r: real, minBounds: IVec3, maxBounds: IVec3, positions: seq<Float4>)
    returns (samples: seq<Float4>)
    requires r > 0.0
    ensures |samples| == |LocalPoints(sdfs, r, minBounds, maxBounds, positions, |positions|)|
    ensures forall q :: q in samples <==> q in LocalPoints(sdfs, r, minBounds, maxBounds, positions, |positions|)
    ensures forall a, b | 0 <= a < b < |samples| :: samples[a] != samples[b]
  {
    var particles: set<Float4> := {};
    for i := 0 to |positions|
      invariant particles == LocalPoints(sdfs, r, minBounds, maxBounds, positions, i)
    {
      particles := LocalParticle(sdfs, r, minBounds, maxBounds, Xyz(positions[i]), particles);
    }
    samples := [];
    if particles != {} {
      samples := SetToSeq(particles);
    }
  }

  // ---------------------------------------------------------------------
  // The hash set's hash and equality (`Float4Hash`, `Float4Comparator`)

  /** The IEEE-754 bit patterns of the four components of a `float4`, read as 32-bit words. */
  datatype Float4Bits = Float4Bits(x: bv32, y: bv32, z: bv32, w: bv32)

  /**
   * `static_cast<size_t>` of an `int` given by its 32-bit pattern: two's
   * complement sign extension to 64 bits.
   */
  function SignExtend(b: bv32): bv64
  {
    if b < 0x8000_0000 then b as bv64 else (b as bv64) | 0xFFFF_FFFF_0000_0000
  }

  const HashPrimeX: bv32 := 73856093
  const HashPrimeY: bv32 := 19349663
  const HashPrimeZ: bv32 := 83492791
  /** The bucket range `2 * 20000`. */
  const HashRange: nat := 40000

  /**
   * The hash of the x, y, z bit patterns: each times its prime with 32-bit
   * wrap-around, the three products combined by exclusive or, the result
   * sign-extended to `size_t` and reduced modulo 40000.
   */
  function HashXyz(x: bv32, y: bv32, z: bv32): (h: nat)
    ensures h < HashRange
  {
    var mixed := (HashPrimeX * x) ^ (HashPrimeY * y) ^ (HashPrimeZ * z);
    (SignExtend(mixed) as int) % HashRange
  }

  /** `Float4Hash`: the hash of the bit patterns of a point's x, y and z. */
  function Float4Hash(b: Float4Bits): (h: nat)
    ensures h < HashRange
  {
    HashXyz(b.x, b.y, b.z)
  }

  /** The hash ignores the fourth component: points differing only in `w` share a bucket. */
  lemma HashIgnoresW(b: Float4Bits, c: Float4Bits)
    requires b.x == c.x && b.y == c.y && b.z == c.z
    ensures Float4Hash(b) == Float4Hash(c)
  {
  }

  /** `Float4Comparator`: two points are the same key when all four components agree. */
  function Float4Equal(p: Float4, q: Float4): (same: bool)
    ensures same <==> p == q
  {
    p.x == q.x && p.y == q.y && p.z == q.z && p.w == q.w
  }
}
