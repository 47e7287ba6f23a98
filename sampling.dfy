/**
 * The SDF surface samples: static particles placed on the lattice of cell
 * width `W = 2r` wherever some field's surface passes within one radius.
 *
 * Two scans produce them. The world scan (`computeSDFSurfaces`) visits the
 * whole world box once, x-major, and keeps a lattice point when any field
 * is near it. The local scan (`generateParticlesLocal`) visits, for every
 * particle and every field whose value there is at most `4r`, a box of
 * half-width `4r` around the particle clamped to the world, and keeps the
 * first near point of each (z, x) column; its results are collected in a
 * hash set.
 *
 * A loop `for (v = lo; v < hi; v += W)` with `lo` aligned to the lattice
 * is modelled by the integer indices `m` it visits, with coordinate `m * W`.
 */
module Sampling {
  import opened Geometry
  import opened Sdf

  datatype Option<T> = None | Some(value: T)

  /** `fabsf(sdf.evaluate(p)) <= r`: the field's surface passes within one radius of `p`. */
  predicate Near(f: Field, p: Vec3, r: real)
  {
    Abs(f.Evaluate(p)) <= r
  }

  /** Some field of the list is near `p`. */
  predicate AnyNear(sdfs: seq<Field>, p: Vec3, r: real)
  {
    exists n | 0 <= n < |sdfs| :: Near(sdfs[n], p, r)
  }

  /** The world scan's loop over the fields: it stops at the first near one. */
  method FirstNear(sdfs: seq<Field>, p: Vec3, r: real) returns (hit: bool)
    ensures hit <==> AnyNear(sdfs, p, r)
  {
    hit := false;
    for n := 0 to |sdfs|
      invariant forall m | 0 <= m < n :: !Near(sdfs[m], p, r)
    {
      if Near(sdfs[n], p, r) {
        hit := true;
        return;
      }
    }
  }

  // ---------------------------------------------------------------------
  // The lattice

  /** The lattice point of cell `c` at cell width `w`, with `w` component 1. */
  function LatticePoint(w: real, c: IVec3): Float4
  {
    Float4(c.x as real * w, c.y as real * w, c.z as real * w, 1.0)
  }

  /** Distinct indices give distinct coordinates, in the same order. */
  lemma LatticeOrder(w: real, m: int, n: int)
    requires w > 0.0
    ensures m < n <==> m as real * w < n as real * w
    ensures m == n <==> m as real * w == n as real * w
  {
    if m < n {
      assert (n - m) as real * w > 0.0;
    } else if n < m {
      assert (m - n) as real * w > 0.0;
    }
  }

  /** A run of consecutive lattice indices: `first .. first + count - 1`. */
  datatype Span = Span(first: int, count: nat)

  predicate InSpan(s: Span, m: int)
  {
    s.first <= m < s.first + s.count
  }

  /** The index runs a scan visits on each axis. */
  datatype Box = Box(x: Span, y: Span, z: Span)

  predicate InBox(b: Box, c: IVec3)
  {
    InSpan(b.x, c.x) && InSpan(b.y, c.y) && InSpan(b.z, c.z)
  }

  /** `a` is the first lattice coordinate not below `v`. */
  predicate AlignedUp(v: real, a: real, w: real)
    requires w > 0.0
  {
    a == Ceil(v / w) as real * w && v <= a < v + w
  }

  /** One coordinate of `alignToGrid`'s lower corner: `floorf(ceilf(v / w) * w / w) * w`. */
  function AlignAxis(v: real, w: real): (a: real)
    requires w > 0.0
    ensures AlignedUp(v, a, w)
  {
    var c := Ceil(v / w);
    var up := c as real * w;
    AlignedIndexStable(c, w);
    AlignUp(v, w);
    assert (up / w).Floor == c;
    (up / w).Floor as real * w
  }

  /**
   * `alignToGrid`: each coordinate of the lower corner is rounded up to
   * the first lattice coordinate not below it, and the upper corner is not
   * touched.
   */
  method AlignToGrid(w: real, lo: Vec3, hi: Vec3) returns (lo': Vec3, hi': Vec3)
    requires w > 0.0
    ensures AlignedUp(lo.x, lo'.x, w) && AlignedUp(lo.y, lo'.y, w) && AlignedUp(lo.z, lo'.z, w)
    ensures hi' == hi
  {
    var ax := AlignAxis(lo.x, w);
    var ay := AlignAxis(lo.y, w);
    var az := AlignAxis(lo.z, w);
    lo', hi' := Vec3(ax, ay, az), hi;
  }

  /** The indices of `for (v = alignedLo; v < hi; v += w)`, with `alignedLo` a lattice coordinate. */
  function SpanFrom(alignedLo: real, hi: real, w: real): Span
    requires w > 0.0
  {
    var a := (alignedLo / w).Floor;
    var b := Ceil(hi / w);
    Span(a, if b > a then b - a else 0)
  }

  /** The indices an aligned scan of `[lo, hi)` visits on one axis. */
  function AxisSpan(lo: real, hi: real, w: real): Span
    requires w > 0.0
  {
    var a := Ceil(lo / w);
    var b := Ceil(hi / w);
    Span(a, if b > a then b - a else 0)
  }

  /** Starting the loop at the aligned lower end `x` visits the indices of `AxisSpan`. */
  lemma AlignedSpan(lo: real, hi: real, w: real, x: real)
    requires w > 0.0 && x == Ceil(lo / w) as real * w
    ensures SpanFrom(x, hi, w) == AxisSpan(lo, hi, w)
  {
    var c := Ceil(lo / w);
    AlignedIndexStable(c, w);
    assert x / w == c as real;
    assert SpanFrom(x, hi, w).first == c == AxisSpan(lo, hi, w).first;
  }

  /** The index runs of an aligned scan of the box `[lo, hi)`. */
  function ScanBox(lo: Vec3, hi: Vec3, w: real): Box
    requires w > 0.0
  {
    Box(AxisSpan(lo.x, hi.x, w), AxisSpan(lo.y, hi.y, w), AxisSpan(lo.z, hi.z, w))
  }

  /** An aligned scan visits exactly the lattice coordinates in `[lo, hi)`: the run `s` of
      the axis holds index `m` exactly when its coordinate `v` lies in the interval. */
  lemma AxisSpanExact(lo: real, hi: real, w: real, s: Span, m: int, v: real)
    requires w > 0.0 && s == AxisSpan(lo, hi, w) && v == m as real * w
    ensures InSpan(s, m) <==> lo <= v < hi
  {
    LatticeIndexBound(m, hi, w);
    LatticeIndexBound(m, lo, w);
  }

  /** `p` lies in the half-open box `[lo, hi)`. */
  predicate Within(lo: Vec3, hi: Vec3, p: Float4)
  {
    lo.x <= p.x < hi.x && lo.y <= p.y < hi.y && lo.z <= p.z < hi.z
  }

  /** An aligned scan of a box visits exactly the lattice points inside it. */
  lemma ScanBoxExact(lo: Vec3, hi: Vec3, w: real, c: IVec3)
    requires w > 0.0
    ensures InBox(ScanBox(lo, hi, w), c) <==> Within(lo, hi, LatticePoint(w, c))
  {
    var p := LatticePoint(w, c);
    var box := ScanBox(lo, hi, w);
    AxisSpanExact(lo.x, hi.x, w, box.x, c.x, p.x);
    AxisSpanExact(lo.y, hi.y, w, box.y, c.y, p.y);
    AxisSpanExact(lo.z, hi.z, w, box.z, c.z, p.z);
  }

  /** After `alignToGrid`, the loops' index runs are those of `ScanBox`. */
  lemma AlignedScanBox(w: real, lo: Vec3, hi: Vec3, lo': Vec3)
    requires w > 0.0
    requires AlignedUp(lo.x, lo'.x, w) && AlignedUp(lo.y, lo'.y, w) && AlignedUp(lo.z, lo'.z, w)
    ensures Box(SpanFrom(lo'.x, hi.x, w), SpanFrom(lo'.y, hi.y, w), SpanFrom(lo'.z, hi.z, w)) == ScanBox(lo, hi, w)
  {
    AlignedSpan(lo.x, hi.x, w, lo'.x);
    AlignedSpan(lo.y, hi.y, w, lo'.y);
    AlignedSpan(lo.z, hi.z, w, lo'.z);
  }

  /** Distinct cells have distinct lattice points. */
  lemma LatticeInjective(w: real, c: IVec3, d: IVec3)
    requires w > 0.0
    ensures LatticePoint(w, c) == LatticePoint(w, d) <==> c == d
  {
    LatticeOrder(w, c.x, d.x);
    LatticeOrder(w, c.y, d.y);
    LatticeOrder(w, c.z, d.z);
  }

  // ---------------------------------------------------------------------
  // Scan order

  /** The (x, y, z) lexicographic order of cells, the order of the world scan. */
  predicate CellBefore(c: IVec3, d: IVec3)
  {
    c.x < d.x || (c.x == d.x && (c.y < d.y || (c.y == d.y && c.z < d.z)))
  }

  /** Strictly ascending cells, each after the one before it. */
  predicate Ascending(s: seq<IVec3>)
  {
    |s| <= 1 || (Ascending(s[..|s| - 1]) && CellBefore(s[|s| - 2], s[|s| - 1]))
  }

  lemma CellBeforeTransitive(c: IVec3, d: IVec3, e: IVec3)
    requires CellBefore(c, d) && CellBefore(d, e)
    ensures CellBefore(c, e)
  {
  }

  /** An ascending run is in order pairwise, so no cell occurs twice. */
  lemma {:induction false} AscendingPairwise(s: seq<IVec3>)
    requires Ascending(s)
    ensures forall a, b | 0 <= a < b < |s| :: CellBefore(s[a], s[b])
  {
    if |s| > 1 {
      var init := s[..|s| - 1];
      AscendingPairwise(init);
      forall a, b | 0 <= a < b < |s| ensures CellBefore(s[a], s[b]) {
        if b < |s| - 1 {
          assert s[a] == init[a] && s[b] == init[b];
        } else if a < |s| - 2 {
          assert s[a] == init[a] && s[|s| - 2] == init[|s| - 2];
          CellBeforeTransitive(s[a], s[|s| - 2], s[b]);
        }
      }
    }
  }

  /** Two ascending runs, the first ending before the second begins, join into one. */
  lemma {:induction false} AscendingConcat(s: seq<IVec3>, t: seq<IVec3>)
    requires Ascending(s) && Ascending(t)
    requires |s| > 0 && |t| > 0 ==> CellBefore(s[|s| - 1], t[0])
    ensures Ascending(s + t)
  {
    if |t| == 0 {
      assert s + t == s;
    } else if |t| == 1 {
      assert (s + t)[..|s + t| - 1] == s;
    } else {
      var init := t[..|t| - 1];
      assert Ascending(init);
      AscendingConcat(s, init);
      assert (s + t)[..|s + t| - 1] == s + init;
      assert (s + t)[|s + t| - 2] == t[|t| - 2];
    }
  }

  /** `u` is the join of two ascending runs, the first ending before the second begins. */
  lemma AscendingJoin(s: seq<IVec3>, t: seq<IVec3>, u: seq<IVec3>)
    requires Ascending(s) && Ascending(t) && u == s + t
    requires |s| > 0 && |t| > 0 ==> CellBefore(s[|s| - 1], t[0])
    ensures Ascending(u)
  {
    AscendingConcat(s, t);
  }

  /** `samples` holds the lattice points of `cells`, one for one and in the same order. */
  predicate Tracks(w: real, cells: seq<IVec3>, samples: seq<Float4>)
  {
    |samples| == |cells| && forall k | 0 <= k < |cells| :: samples[k] == LatticePoint(w, cells[k])
  }

  /** The points of ascending cells are pairwise distinct. */
  lemma AscendingPointsDistinct(w: real, cells: seq<IVec3>, samples: seq<Float4>)
    requires w > 0.0 && Ascending(cells) && Tracks(w, cells, samples)
    ensures forall a, b | 0 <= a < b < |samples| :: samples[a] != samples[b]
  {
    AscendingPairwise(cells);
    forall a, b | 0 <= a < b < |samples| ensures samples[a] != samples[b] {
      LatticeInjective(w, cells[a], cells[b]);
    }
  }

  // ---------------------------------------------------------------------
  // The world scan (`computeSDFSurfaces`)

  /** The world scan keeps cell `c` when some field is near its lattice point. */
  predicate Kept(sdfs: seq<Field>, r: real, w: real, c: IVec3)
  {
    AnyNear(sdfs, Xyz(LatticePoint(w, c)), r)
  }

  /** What the scan keeps of cell `c`, for a keep test `keep`. */
  function KeptCell(keep: IVec3 -> bool, c: IVec3): seq<IVec3>
  {
    if keep(c) then [c] else []
  }

  /** The innermost (z) loop of column (i, j), after its first `n` cells. */
  function WorldColumn(keep: IVec3 -> bool, i: int, j: int, z: Span, n: nat): seq<IVec3>
  {
    if n == 0 then [] else WorldColumn(keep, i, j, z, n - 1) + KeptCell(keep, IVec3(i, j, z.first + n - 1))
  }

  /** The middle (y) loop of plane `i`, after its first `n` columns. */
  function WorldPlane(keep: IVec3 -> bool, i: int, y: Span, z: Span, n: nat): seq<IVec3>
  {
    if n == 0 then [] else WorldPlane(keep, i, y, z, n - 1) + WorldColumn(keep, i, y.first + n - 1, z, z.count)
  }

  /** The outer (x) loop, after its first `n` planes. */
  function WorldScan(keep: IVec3 -> bool, box: Box, n: nat): seq<IVec3>
  {
    if n == 0 then [] else WorldScan(keep, box, n - 1) + WorldPlane(keep, box.x.first + n - 1, box.y, box.z, box.y.count)
  }

  lemma {:induction false} WorldColumnMembers(keep: IVec3 -> bool, i: int, j: int, z: Span, n: nat, c: IVec3)
    ensures c in WorldColumn(keep, i, j, z, n) <==>
            c.x == i && c.y == j && z.first <= c.z < z.first + n && keep(c)
  {
    if n > 0 {
      WorldColumnMembers(keep, i, j, z, n - 1, c);
    }
  }

  /** Every cell of a column lies on that column, below its next z cell. */
  lemma {:induction false} WorldColumnBelow(keep: IVec3 -> bool, i: int, j: int, z: Span, n: nat, k: nat)
    requires k < |WorldColumn(keep, i, j, z, n)|
    ensures WorldColumn(keep, i, j, z, n)[k].x == i && WorldColumn(keep, i, j, z, n)[k].y == j
    ensures WorldColumn(keep, i, j, z, n)[k].z < z.first + n
  {
    if k < |WorldColumn(keep, i, j, z, n - 1)| {
      WorldColumnBelow(keep, i, j, z, n - 1, k);
    }
  }

  /** The last cell a column has kept lies below the next z cell. */
  lemma {:induction false} WorldColumnBoundary(keep: IVec3 -> bool, i: int, j: int, z: Span, n: nat, s: seq<IVec3>)
    requires n > 0
    requires s == WorldColumn(keep, i, j, z, n - 1)
    ensures |s| > 0 ==> CellBefore(s[|s| - 1], IVec3(i, j, z.first + n - 1))
  {
    if |s| > 0 {
      WorldColumnBelow(keep, i, j, z, n - 1, |s| - 1);
    }
  }

  lemma {:induction false} WorldColumnAscending(keep: IVec3 -> bool, i: int, j: int, z: Span, n: nat)
    ensures Ascending(WorldColumn(keep, i, j, z, n))
  {
    if n > 0 {
      WorldColumnAscending(keep, i, j, z, n - 1);
      WorldColumnBoundary(keep, i, j, z, n, WorldColumn(keep, i, j, z, n - 1));
      AscendingJoin(WorldColumn(keep, i, j, z, n - 1), KeptCell(keep, IVec3(i, j, z.first + n - 1)),
                    WorldColumn(keep, i, j, z, n));
    }
  }

  lemma {:induction false} WorldPlaneMembers(keep: IVec3 -> bool, i: int, y: Span, z: Span, n: nat, c: IVec3)
    ensures c in WorldPlane(keep, i, y, z, n) <==>
            c.x == i && y.first <= c.y < y.first + n && InSpan(z, c.z) && keep(c)
  {
    if n > 0 {
      WorldPlaneMembers(keep, i, y, z, n - 1, c);
      WorldColumnMembers(keep, i, y.first + n - 1, z, z.count, c);
    }
  }

  /** Every cell of a plane lies on that plane, before its next column. */
  lemma {:induction false} WorldPlaneBelow(keep: IVec3 -> bool, i: int, y: Span, z: Span, n: nat, k: nat)
    requires k < |WorldPlane(keep, i, y, z, n)|
    ensures WorldPlane(keep, i, y, z, n)[k].x == i && WorldPlane(keep, i, y, z, n)[k].y < y.first + n
  {
    var s := WorldPlane(keep, i, y, z, n - 1);
    if k < |s| {
      WorldPlaneBelow(keep, i, y, z, n - 1, k);
    } else {
      WorldColumnBelow(keep, i, y.first + n - 1, z, z.count, k - |s|);
    }
  }

  /** The last cell of the first `n - 1` columns of plane `i` lies before column `n - 1`. */
  lemma {:induction false} WorldPlaneLast(keep: IVec3 -> bool, i: int, y: Span, z: Span, n: nat, s: seq<IVec3>)
    requires n > 0 && s == WorldPlane(keep, i, y, z, n - 1) && |s| > 0
    ensures s[|s| - 1].x == i && s[|s| - 1].y < y.first + n - 1
  {
    WorldPlaneBelow(keep, i, y, z, n - 1, |s| - 1);
  }

  /** The first cell a whole column keeps lies on that column. */
  lemma {:induction false} WorldColumnFirst(keep: IVec3 -> bool, i: int, j: int, z: Span, t: seq<IVec3>)
    requires t == WorldColumn(keep, i, j, z, z.count) && |t| > 0
    ensures t[0].x == i && t[0].y == j
  {
    WorldColumnBelow(keep, i, j, z, z.count, 0);
  }

  /** One step of the middle loop keeps its cells ascending. */
  lemma {:induction false} WorldPlaneStep(keep: IVec3 -> bool, i: int, y: Span, z: Span, n: nat, s: seq<IVec3>, t: seq<IVec3>)
    requires n > 0
    requires s == WorldPlane(keep, i, y, z, n - 1) && Ascending(s)
    requires t == WorldColumn(keep, i, y.first + n - 1, z, z.count) && Ascending(t)
    ensures Ascending(WorldPlane(keep, i, y, z, n))
  {
    if |s| > 0 && |t| > 0 {
      WorldPlaneLast(keep, i, y, z, n, s);
      WorldColumnFirst(keep, i, y.first + n - 1, z, t);
    }
    AscendingJoin(s, t, WorldPlane(keep, i, y, z, n));
  }

  lemma {:induction false} WorldPlaneAscending(keep: IVec3 -> bool, i: int, y: Span, z: Span, n: nat)
    ensures Ascending(WorldPlane(keep, i, y, z, n))
  {
    if n > 0 {
      WorldPlaneAscending(keep, i, y, z, n - 1);
      WorldColumnAscending(keep, i, y.first + n - 1, z, z.count);
      WorldPlaneStep(keep, i, y, z, n, WorldPlane(keep, i, y, z, n - 1), WorldColumn(keep, i, y.first + n - 1, z, z.count));
    }
  }

  lemma {:induction false} WorldScanMembers(keep: IVec3 -> bool, box: Box, n: nat, c: IVec3)
    ensures c in WorldScan(keep, box, n) <==>
            box.x.first <= c.x < box.x.first + n && InSpan(box.y, c.y) && InSpan(box.z, c.z) && keep(c)
  {
    if n > 0 {
      WorldScanMembers(keep, box, n - 1, c);
      WorldPlaneMembers(keep, box.x.first + n - 1, box.y, box.z, box.y.count, c);
    }
  }

  /** Every cell of the planes visited so far lies before the next plane. */
  lemma {:induction false} WorldScanBelow(keep: IVec3 -> bool, box: Box, n: nat, k: nat)
    requires k < |WorldScan(keep, box, n)|
    ensures WorldScan(keep, box, n)[k].x < box.x.first + n
  {
    var s := WorldScan(keep, box, n - 1);
    if k < |s| {
      WorldScanBelow(keep, box, n - 1, k);
    } else {
      WorldPlaneBelow(keep, box.x.first + n - 1, box.y, box.z, box.y.count, k - |s|);
    }
  }

  /** The last cell of the planes visited so far comes before every cell of the next plane. */
  lemma {:induction false} WorldScanBoundary(keep: IVec3 -> bool, box: Box, n: nat, s: seq<IVec3>, t: seq<IVec3>)
    requires n > 0
    requires s == WorldScan(keep, box, n - 1)
    requires t == WorldPlane(keep, box.x.first + n - 1, box.y, box.z, box.y.count)
    ensures |s| > 0 && |t| > 0 ==> CellBefore(s[|s| - 1], t[0])
  {
    if |s| > 0 && |t| > 0 {
      WorldScanLast(keep, box, n, s);
      WorldPlaneFirst(keep, box.x.first + n - 1, box.y, box.z, t);
    }
  }

  /** The last cell of the first `n - 1` planes lies before plane `n - 1`. */
  lemma {:induction false} WorldScanLast(keep: IVec3 -> bool, box: Box, n: nat, s: seq<IVec3>)
    requires n > 0 && s == WorldScan(keep, box, n - 1) && |s| > 0
    ensures s[|s| - 1].x < box.x.first + n - 1
  {
    WorldScanBelow(keep, box, n - 1, |s| - 1);
  }

  /** The first cell a whole plane keeps lies on that plane. */
  lemma {:induction false} WorldPlaneFirst(keep: IVec3 -> bool, i: int, y: Span, z: Span, t: seq<IVec3>)
    requires t == WorldPlane(keep, i, y, z, y.count) && |t| > 0
    ensures t[0].x == i
  {
    WorldPlaneBelow(keep, i, y, z, y.count, 0);
  }

  /** The world scan keeps cells in ascending (x, y, z) order. */
  lemma {:induction false} WorldScanAscending(keep: IVec3 -> bool, box: Box, n: nat)
    ensures Ascending(WorldScan(keep, box, n))
  {
    if n > 0 {
      WorldScanAscending(keep, box, n - 1);
      WorldPlaneAscending(keep, box.x.first + n - 1, box.y, box.z, box.y.count);
      WorldScanBoundary(keep, box, n, WorldScan(keep, box, n - 1),
                        WorldPlane(keep, box.x.first + n - 1, box.y, box.z, box.y.count));
      AscendingJoin(WorldScan(keep, box, n - 1), WorldPlane(keep, box.x.first + n - 1, box.y, box.z, box.y.count),
                    WorldScan(keep, box, n));
    }
  }

  // ---------------------------------------------------------------------
  // The world scan as a loop

  /** The world scan's keep test: some field is near the cell's lattice point. */
  function KeepNear(sdfs: seq<Field>, r: real, w: real): IVec3 -> bool
  {
    c => Kept(sdfs, r, w, c)
  }

  /** `make_float3(p) + make_float3(r)`: a corner shifted by one radius on every axis. */
  function Shifted(p: IVec3, r: real): Vec3
  {
    Add(ToVec3(p), Vec3(r, r, r))
  }

  /** The index runs of the world scan: the world box shifted by `r`, on the lattice of width `2r`. */
  function WorldBox(minBounds: IVec3, maxBounds: IVec3, r: real): Box
    requires r > 0.0
  {
    ScanBox(Shifted(minBounds, r), Shifted(maxBounds, r), 2.0 * r)
  }

  /** The cells whose lattice points `computeSDFSurfaces` leaves in `m_sdfParticles`, in order. */
  function WorldCells(sdfs: seq<Field>, r: real, minBounds: IVec3, maxBounds: IVec3): seq<IVec3>
    requires r > 0.0
  {
    var box := WorldBox(minBounds, maxBounds, r);
    WorldScan(KeepNear(sdfs, r, 2.0 * r), box, box.x.count)
  }

  /** Appending one more part to a run that extends `c0` still extends `c0`. */
  lemma AppendPart(c0: seq<IVec3>, p: seq<IVec3>, q: seq<IVec3>, u: seq<IVec3>, v: seq<IVec3>)
    requires u == c0 + p && v == u + q
    ensures v == c0 + (p + q)
  {
  }

  lemma WorldColumnNext(keep: IVec3 -> bool, i: int, j: int, z: Span, c: nat)
    ensures WorldColumn(keep, i, j, z, c + 1) == WorldColumn(keep, i, j, z, c) + KeptCell(keep, IVec3(i, j, z.first + c))
  {
  }

  lemma WorldPlaneNext(keep: IVec3 -> bool, i: int, y: Span, z: Span, b: nat)
    ensures WorldPlane(keep, i, y, z, b + 1) == WorldPlane(keep, i, y, z, b) + WorldColumn(keep, i, y.first + b, z, z.count)
  {
  }

  lemma WorldScanNext(keep: IVec3 -> bool, box: Box, a: nat, before: seq<IVec3>, cells: seq<IVec3>)
    requires before == WorldScan(keep, box, a)
    requires cells == before + WorldPlane(keep, box.x.first + a, box.y, box.z, box.y.count)
    ensures cells == WorldScan(keep, box, a + 1)
  {
  }

  /** The innermost (z) loop of `computeSDFSurfaces` for the column (i, j). */
  method WorldColumnLoop(sdfs: seq<Field>, r: real, w: real, i: int, j: int, z: Span,
                         ghost cells0: seq<IVec3>, samples0: seq<Float4>)
    returns (ghost cells: seq<IVec3>, samples: seq<Float4>)
    requires Tracks(w, cells0, samples0)
    ensures cells == cells0 + WorldColumn(KeepNear(sdfs, r, w), i, j, z, z.count)
    ensures Tracks(w, cells, samples)
  {
    cells, samples := cells0, samples0;
    for c := 0 to z.count
      invariant cells == cells0 + WorldColumn(KeepNear(sdfs, r, w), i, j, z, c)
      invariant Tracks(w, cells, samples)
    {
      var cell := IVec3(i, j, z.first + c);
      var p := LatticePoint(w, cell);
      var hit := FirstNear(sdfs, Xyz(p), r);
      ghost var before := cells;
      if hit {
        cells, samples := cells + [cell], samples + [p];
      }
      WorldColumnNext(KeepNear(sdfs, r, w), i, j, z, c);
      AppendPart(cells0, WorldColumn(KeepNear(sdfs, r, w), i, j, z, c),
                 KeptCell(KeepNear(sdfs, r, w), cell), before, cells);
    }
  }

  /** The middle (y) loop of `computeSDFSurfaces` for the plane `i`. */
  method WorldPlaneLoop(sdfs: seq<Field>, r: real, w: real, i: int, y: Span, z: Span,
                        ghost cells0: seq<IVec3>, samples0: seq<Float4>)
    returns (ghost cells: seq<IVec3>, samples: seq<Float4>)
    requires Tracks(w, cells0, samples0)
    ensures cells == cells0 + WorldPlane(KeepNear(sdfs, r, w), i, y, z, y.count)
    ensures Tracks(w, cells, samples)
  {
    cells, samples := cells0, samples0;
    for b := 0 to y.count
      invariant cells == cells0 + WorldPlane(KeepNear(sdfs, r, w), i, y, z, b)
      invariant Tracks(w, cells, samples)
    {
      ghost var before := cells;
      cells, samples := WorldColumnLoop(sdfs, r, w, i, y.first + b, z, cells, samples);
      WorldPlaneNext(KeepNear(sdfs, r, w), i, y, z, b);
      AppendPart(cells0, WorldPlane(KeepNear(sdfs, r, w), i, y, z, b),
                 WorldColumn(KeepNear(sdfs, r, w), i, y.first + b, z, z.count), before, cells);
    }
  }

  /**
   * The index runs of the loops `for (v = lo'; v < hi'; v += w)` on each
   * axis, once `alignToGrid` has turned the corners `lo`, `hi` into `lo'`, `hi'`.
   */
  method AlignedBox(w: real, lo: Vec3, hi: Vec3) returns (box: Box)
    requires w > 0.0
    ensures box == ScanBox(lo, hi, w)
  {
    var lo', hi' := AlignToGrid(w, lo, hi);
    box := Box(SpanFrom(lo'.x, hi'.x, w), SpanFrom(lo'.y, hi'.y, w), SpanFrom(lo'.z, hi'.z, w));
    AlignedScanBox(w, lo, hi, lo');
  }

  /** The outer (x) loop of `computeSDFSurfaces` over the index runs `box`. */
  method WorldScanLoop(sdfs: seq<Field>, r: real, w: real, box: Box)
    returns (ghost cells: seq<IVec3>, samples: seq<Float4>)
    ensures cells == WorldScan(KeepNear(sdfs, r, w), box, box.x.count)
    ensures Tracks(w, cells, samples)
  {
    cells, samples := [], [];
    for a := 0 to box.x.count
      invariant cells == WorldScan(KeepNear(sdfs, r, w), box, a)
      invariant Tracks(w, cells, samples)
    {
      ghost var before := cells;
      cells, samples := WorldPlaneLoop(sdfs, r, w, box.x.first + a, box.y, box.z, cells, samples);
      WorldScanNext(KeepNear(sdfs, r, w), box, a, before, cells);
    }
  }

  /**
   * `computeSDFSurfaces`: the lower corner `minBounds + r` is aligned to the
   * lattice and every lattice point below `maxBounds + r` is visited, x
   * outermost and z innermost; a point is kept when some field is near it.
   */
  method ComputeSurfaces(sdfs: seq<Field>, r: real, minBounds: IVec3, maxBounds: IVec3)
    returns (samples: seq<Float4>)
    requires r > 0.0
    ensures Tracks(2.0 * r, WorldCells(sdfs, r, minBounds, maxBounds), samples)
  {
    var w := 2.0 * r;
    var box := AlignedBox(w, Shifted(minBounds, r), Shifted(maxBounds, r));
    ghost var cells;
    cells, samples := WorldScanLoop(sdfs, r, w, box);
  }

  // ---------------------------------------------------------------------
  // What the world scan produces

  /** Every sample is a point `(x, y, z, 1)` of the shifted world box that some field is near. */
  lemma WorldSampleSound(sdfs: seq<Field>, r: real, minBounds: IVec3, maxBounds: IVec3,
                         samples: seq<Float4>, k: nat)
    requires r > 0.0 && Tracks(2.0 * r, WorldCells(sdfs, r, minBounds, maxBounds), samples)
    requires k < |samples|
    ensures samples[k].w == 1.0
    ensures AnyNear(sdfs, Xyz(samples[k]), r)
    ensures Within(Shifted(minBounds, r), Shifted(maxBounds, r), samples[k])
  {
    var w := 2.0 * r;
    var box := WorldBox(minBounds, maxBounds, r);
    var cells := WorldCells(sdfs, r, minBounds, maxBounds);
    var c := cells[k];
    assert c in cells;
    WorldScanMembers(KeepNear(sdfs, r, w), box, box.x.count, c);
    ScanBoxExact(Shifted(minBounds, r), Shifted(maxBounds, r), w, c);
  }

  /**
   * The world scan misses no lattice point: a lattice point of the shifted
   * world box is a sample exactly when some field is near it.
   */
  lemma WorldSamplesComplete(sdfs: seq<Field>, r: real, minBounds: IVec3, maxBounds: IVec3,
                             samples: seq<Float4>, c: IVec3)
    requires r > 0.0 && Tracks(2.0 * r, WorldCells(sdfs, r, minBounds, maxBounds), samples)
    ensures LatticePoint(2.0 * r, c) in samples <==>
            Within(Shifted(minBounds, r), Shifted(maxBounds, r), LatticePoint(2.0 * r, c)) &&
            AnyNear(sdfs, Xyz(LatticePoint(2.0 * r, c)), r)
  {
    var w := 2.0 * r;
    var box := WorldBox(minBounds, maxBounds, r);
    var cells := WorldCells(sdfs, r, minBounds, maxBounds);
    var p := LatticePoint(w, c);
    if p in samples {
      var k :| 0 <= k < |samples| && samples[k] == p;
      LatticeInjective(w, cells[k], c);
      WorldSampleSound(sdfs, r, minBounds, maxBounds, samples, k);
    } else {
      WorldScanMembers(KeepNear(sdfs, r, w), box, box.x.count, c);
      ScanBoxExact(Shifted(minBounds, r), Shifted(maxBounds, r), w, c);
    }
  }

  /** The world scan emits each lattice point at most once. */
  lemma WorldSamplesDistinct(sdfs: seq<Field>, r: real, minBounds: IVec3, maxBounds: IVec3, samples: seq<Float4>)
    requires r > 0.0 && Tracks(2.0 * r, WorldCells(sdfs, r, minBounds, maxBounds), samples)
    ensures forall a, b | 0 <= a < b < |samples| :: samples[a] != samples[b]
  {
    var box := WorldBox(minBounds, maxBounds, r);
    WorldScanAscending(KeepNear(sdfs, r, 2.0 * r), box, box.x.count);
    AscendingPointsDistinct(2.0 * r, WorldCells(sdfs, r, minBounds, maxBounds), samples);
  }
}
