/**
 * The index and constraint generators inside the shape builders: each
 * fills arrays sized up front, using the counters `index`, `pi` and `di`,
 * and hands their contents to the particle store.
 *
 * Random jitter is taken to be zero throughout.
 */
module Shapes {
  import opened Geometry
  import opened Particles

  // ---------------------------------------------------------------------
  // Row-major index arithmetic

  /** `a * b` by repeated addition, so that row starts unfold one row at a time. */
  function Times(a: nat, b: nat): nat
  {
    if a == 0 then 0 else Times(a - 1, b) + b
  }

  lemma {:induction false} TimesIsProduct(a: nat, b: nat)
    ensures Times(a, b) == a * b
  {
    if a > 0 {
      TimesIsProduct(a - 1, b);
    }
  }

  lemma {:induction false} TimesMonotone(a: nat, a2: nat, b: nat)
    requires a <= a2
    ensures Times(a, b) <= Times(a2, b)
  {
    if a < a2 {
      TimesMonotone(a, a2 - 1, b);
    }
  }

  /** The cell (z, x) of a row-major grid with `cx` columns and `cy` rows is inside it. */
  lemma RowMajorBound(z: nat, x: nat, cx: nat, cy: nat)
    requires z < cy && x < cx
    ensures Times(z, cx) + x < Times(cy, cx)
  {
    TimesMonotone(z + 1, cy, cx);
  }

  /** Row-major order: a cell earlier in the scan has a smaller index. */
  lemma RowMajorBefore(zz: nat, xx: nat, z: nat, x: nat, cx: nat)
    requires xx < cx
    requires zz < z || (zz == z && xx < x)
    ensures Times(zz, cx) + xx < Times(z, cx) + x
  {
    if zz < z {
      TimesMonotone(zz + 1, z, cx);
    }
  }

  lemma MulNonneg(a: int, b: int)
    requires a >= 0 && b >= 0
    ensures a * b >= 0
  {
  }

  /** Row-major decoding: index `z * cx + x` lies in row `z`, column `x`. */
  lemma RowMajorColumn(z: int, x: int, cx: int)
    requires 0 <= z && 0 <= x < cx
    ensures (z * cx + x) / cx == z && (z * cx + x) % cx == x
  {
    var n := z * cx + x;
    var q, r := n / cx, n % cx;
    assert n == q * cx + r && 0 <= r < cx;
    var k := q - z;
    assert k * cx == q * cx - z * cx;
    assert k * cx == x - r;
    if k >= 1 {
      MulNonneg(k - 1, cx);
      assert false;
    } else if k <= -1 {
      MulNonneg(-k - 1, cx);
      assert false;
    }
  }

  // ---------------------------------------------------------------------
  // Rope

  /** The `i`-th rope particle: `start + i * spacing`, with `w = 1`. */
  function RopePoint(start: Vec3, spacing: Vec3, i: int): Float4
  {
    WithW(Add(start, Scale(spacing, i as real)), 1.0)
  }

  /**
   * `addRope`'s arrays: `numLinks + 1` positions, and `numLinks` distance
   * constraints, the i-th joining particles `startI + i` and `startI + i + 1`
   * at rest length `dist`.
   */
  method RopeArrays(startI: int, start: Vec3, spacing: Vec3, dist: real, numLinks: nat)
    returns (pos: seq<Float4>, links: seq<DistanceConstraint>)
    ensures |pos| == numLinks + 1
    ensures forall i | 0 <= i < |pos| :: pos[i] == RopePoint(start, spacing, i)
    ensures |links| == numLinks
    ensures forall k | 0 <= k < numLinks :: links[k] == DistanceConstraint(startI + k, startI + k + 1, dist)
    ensures pos == RopePositions(start, spacing, numLinks) && links == RopeLinks(startI, dist, numLinks)
  {
    var p := new Float4[numLinks + 1];
    var indicesD := new DistanceConstraint[numLinks];
    p[0] := WithW(start, 1.0);
    assert Add(start, Scale(spacing, 0.0)) == start;
    var di := 0;
    for i := 1 to numLinks + 1
      invariant di == i - 1
      invariant forall k | 0 <= k < i :: p[k] == RopePoint(start, spacing, k)
      invariant forall k | 0 <= k < di :: indicesD[k] == DistanceConstraint(startI + k, startI + k + 1, dist)
    {
      p[i] := RopePoint(start, spacing, i);
      indicesD[di] := DistanceConstraint(startI + i - 1, startI + i, dist);
      di := di + 1;
    }
    pos, links := p[..], indicesD[..];
    assert pos == RopePositions(start, spacing, numLinks);
    assert links == RopeLinks(startI, dist, numLinks);
  }

  /** The rope's particle positions, as a sequence. */
  function RopePositions(start: Vec3, spacing: Vec3, numLinks: nat): seq<Float4>
  {
    seq(numLinks + 1, i => RopePoint(start, spacing, i))
  }

  /** The rope's chain of distance constraints, as a sequence. */
  function RopeLinks(startI: int, dist: real, numLinks: nat): seq<DistanceConstraint>
  {
    seq(numLinks, k => DistanceConstraint(startI + k, startI + k + 1, dist))
  }

  // ---------------------------------------------------------------------
  // Horizontal cloth

  /** The cloth particle in row `z`, column `x`: `(ll.x + x*spacing.x, spacing.y, ll.y + z*spacing.z, 1)`. */
  function ClothPoint(llx: int, lly: int, spacing: Vec3, z: int, x: int): Float4
  {
    Float4(llx as real + x as real * spacing.x, spacing.y, lly as real + z as real * spacing.z, 1.0)
  }

  /**
   * The distance-constraint count as the source computes it: the int
   * expression `(cx-1)*(cy-1) + cx*cy - 1` stored in a 32-bit `uint`.
   */
  function ClothDistCountAsWritten(cx: nat, cy: nat): nat
  {
    ((cx - 1) * (cy - 1) + cx * cy - 1) % 0x1_0000_0000
  }

  /** The point-constraint count as the source computes it. */
  function ClothPointCountAsWritten(cx: nat, cy: nat, holdEdges: bool): nat
  {
    if holdEdges then 2 * (cx + cy) else cy
  }

  /** The number of distance constraints the cloth loop writes. */
  function ClothDistCount(cx: nat, cy: nat): nat
  {
    if cx == 0 || cy == 0 then 0
    else
      MulNonneg(cx - 1, cy - 1);
      (cx - 1) * (cy - 1) + cx * cy - 1
  }

  /** The number of point constraints the cloth loop writes. */
  function ClothPointCount(cx: nat, cy: nat, holdEdges: bool): nat
  {
    if cx == 0 || cy == 0 then 0 else if holdEdges then 2 * (cx + cy) else cy
  }

  /** For a cloth of at least one row and column, the source's sizes are the written counts. */
  lemma ClothSizingAgrees(cx: nat, cy: nat, holdEdges: bool)
    requires cx >= 1 && cy >= 1 && 2 * cx * cy < 0x1_0000_0000
    ensures ClothDistCountAsWritten(cx, cy) == ClothDistCount(cx, cy) == 2 * cx * cy - cx - cy
    ensures ClothPointCountAsWritten(cx, cy, holdEdges) == ClothPointCount(cx, cy, holdEdges)
  {
    assert (cx - 1) * (cy - 1) == cx * cy - cx - cy + 1;
    assert 0 <= 2 * cx * cy - cx - cy;
  }

  /**
   * A cloth rectangle narrower than one spacing along either axis writes
   * nothing, yet the source's sizes wrap. With `cx == 0` and five rows the
   * distance array gets 4294967291 entries (the 32-bit wrap of -5) and five
   * point constraints that were never written are registered. With three
   * columns and `cy == 0` it gets 4294967293 entries (the wrap of -3), and
   * with `holdEdges` six unwritten point constraints.
   */
  lemma ClothSizingWrapsOnEmptyRow()
    ensures ClothDistCountAsWritten(0, 5) == 4294967291 && ClothDistCount(0, 5) == 0
    ensures ClothPointCountAsWritten(0, 5, false) == 5 && ClothPointCount(0, 5, false) == 0
    ensures ClothDistCountAsWritten(3, 0) == 4294967293 && ClothDistCount(3, 0) == 0
    ensures ClothPointCountAsWritten(3, 0, true) == 6 && ClothPointCount(3, 0, true) == 0
  {
  }

  /** Distance constraints written by the iterations before row `z`, column `x`. */
  function DistsBefore(cx: nat, z: nat, x: nat): int
  {
    if cx == 0 then 0
    else Times(z, cx - 1) + (if x > 0 then x - 1 else 0) + (if z == 0 then 0 else Times(z - 1, cx) + x)
  }

  /** Point constraints written by the iterations before row `z`, column `x`. */
  function PointsBefore(cx: nat, cy: nat, holdEdges: bool, z: nat, x: nat): int
  {
    if cx == 0 || cy == 0 then 0
    else
      z + (if x > 0 then 1 else 0)
      + (if holdEdges then
           (if z > 0 then cx else x)
           + z + (if x == cx then 1 else 0)
           + (if z == cy then cx else if z + 1 == cy then x else 0)
         else 0)
  }

  /** One cell writes one distance constraint per neighbour on its left and above, and never overruns. */
  lemma DistsBeforeStep(cx: nat, cy: nat, z: nat, x: nat)
    requires z < cy && x < cx
    ensures DistsBefore(cx, z, x + 1) == DistsBefore(cx, z, x) + (if x > 0 then 1 else 0) + (if z > 0 then 1 else 0)
    ensures DistsBefore(cx, z, x + 1) <= DistsBefore(cx, cy, 0)
  {
    TimesMonotone(z + 1, cy, cx - 1);
    if z > 0 {
      TimesMonotone(z, cy - 1, cx);
    }
  }

  /** The count after the last cell of a row is the count before the next row. */
  lemma DistsBeforeRow(cx: nat, z: nat)
    requires cx >= 1
    ensures DistsBefore(cx, z, cx) == DistsBefore(cx, z + 1, 0)
  {
  }

  /** After the last row, exactly the sized number of distance constraints was written. */
  lemma DistsBeforeAll(cx: nat, cy: nat)
    ensures DistsBefore(cx, cy, 0) == ClothDistCount(cx, cy)
  {
    if cx > 0 && cy > 0 {
      TimesIsProduct(cy, cx - 1);
      TimesIsProduct(cy - 1, cx);
      assert (cx - 1) * (cy - 1) + cx * cy - 1 == cy * (cx - 1) + (cy - 1) * cx;
    }
  }

  /** A horizontal neighbour never crosses into the next row. */
  lemma HorizontalNeighbour(start: int, z: nat, x: nat, cx: nat)
    requires 0 < x < cx
    ensures (start + Times(z, cx) + x - start) % cx != 0
  {
    TimesIsProduct(z, cx);
    RowMajorColumn(z, x, cx);
  }

  /**
   * A distance constraint of a cloth of `size` particles in rows of `cx`:
   * a horizontal neighbour pair within a row, or a vertical one.
   */
  predicate ClothLink(l: DistanceConstraint, start: int, cx: nat, size: nat, distX: real, distY: real)
  {
    cx > 0 && start <= l.i && l.j < start + size &&
    ((l.j == l.i + 1 && l.rest == distX && (l.j - start) % cx != 0) ||
     (l.j == l.i + cx && l.rest == distY))
  }

  /** The distance constraints cell (z, x) writes: to its left neighbour, then to the one above. */
  function CellLinks(start: int, cx: nat, distX: real, distY: real, z: nat, x: nat): seq<DistanceConstraint>
  {
    var particleIndex := start + Times(z, cx) + x;
    (if x > 0 then [DistanceConstraint(particleIndex - 1, particleIndex, distX)] else []) +
    (if z > 0 then [DistanceConstraint(particleIndex - cx, particleIndex, distY)] else [])
  }

  /**
   * How many point constraints cell (z, x) writes: one in the first column;
   * with `holdEdges`, one more on each other border it lies on (first row,
   * last column, last row).
   */
  function CellAnchorCount(cx: nat, cy: nat, holdEdges: bool, z: nat, x: nat): nat
  {
    (if x == 0 then 1 else 0) +
    (if z == 0 && holdEdges then 1 else 0) +
    (if x == cx - 1 && holdEdges then 1 else 0) +
    (if z == cy - 1 && holdEdges then 1 else 0)
  }

  /** `n` copies of `a`. */
  function Repeat<T>(a: T, n: nat): (r: seq<T>)
    ensures |r| == n && forall i | 0 <= i < n :: r[i] == a
  {
    if n == 0 then [] else Repeat(a, n - 1) + [a]
  }

  /** The point constraints cell (z, x) writes, each pinning it to its own position. */
  function CellAnchors(start: int, cx: nat, cy: nat, holdEdges: bool, z: nat, x: nat, here: Float4): seq<PointConstraint>
  {
    Repeat(PointConstraint(start + Times(z, cx) + x, Xyz(here)), CellAnchorCount(cx, cy, holdEdges, z, x))
  }

  /** Each anchor pins a particle among the first `|ps|`, at that particle's position. */
  predicate AnchorsPinned(an: seq<PointConstraint>, ps: seq<Float4>, start: int)
  {
    forall k | 0 <= k < |an| :: start <= an[k].index < start + |ps| && an[k].anchor == Xyz(ps[an[k].index - start])
  }

  /** The positions of row `z`. */
  function ClothRow(llx: int, lly: int, spacing: Vec3, cx: nat, z: nat): seq<Float4>
  {
    seq(cx, x => ClothPoint(llx, lly, spacing, z, x))
  }

  /** The positions of the first `z` rows. */
  function ClothSheet(llx: int, lly: int, spacing: Vec3, cx: nat, z: nat): seq<Float4>
  {
    if z == 0 then [] else ClothSheet(llx, lly, spacing, cx, z - 1) + ClothRow(llx, lly, spacing, cx, z - 1)
  }

  /** The positions written before cell (z, x), in scan order. */
  function ClothPositionsBefore(llx: int, lly: int, spacing: Vec3, cx: nat, z: nat, x: nat): seq<Float4>
    requires x <= cx
  {
    ClothSheet(llx, lly, spacing, cx, z) + ClothRow(llx, lly, spacing, cx, z)[..x]
  }

  /** The distance constraints written before cell (z, x), in scan order. */
  function ClothLinksBefore(start: int, cx: nat, distX: real, distY: real, z: nat, x: nat): seq<DistanceConstraint>
    requires x <= cx
    decreases z, x
  {
    if x == 0 then
      (if z == 0 then [] else ClothLinksBefore(start, cx, distX, distY, z - 1, cx))
    else
      ClothLinksBefore(start, cx, distX, distY, z, x - 1) + CellLinks(start, cx, distX, distY, z, x - 1)
  }

  /** The point constraints written before cell (z, x), in scan order. */
  function ClothAnchorsBefore(start: int, llx: int, lly: int, spacing: Vec3, cx: nat, cy: nat, holdEdges: bool,
                              z: nat, x: nat): seq<PointConstraint>
    requires x <= cx
    decreases z, x
  {
    if x == 0 then
      (if z == 0 then [] else ClothAnchorsBefore(start, llx, lly, spacing, cx, cy, holdEdges, z - 1, cx))
    else
      ClothAnchorsBefore(start, llx, lly, spacing, cx, cy, holdEdges, z, x - 1) +
      CellAnchors(start, cx, cy, holdEdges, z, x - 1, ClothPoint(llx, lly, spacing, z, x - 1))
  }

  /** The positions before cell (z, x) are the cells in row-major order. */
  lemma {:induction false} ClothSheetLength(llx: int, lly: int, spacing: Vec3, cx: nat, z: nat)
    ensures |ClothSheet(llx, lly, spacing, cx, z)| == Times(z, cx)
  {
    if z > 0 {
      ClothSheetLength(llx, lly, spacing, cx, z - 1);
    }
  }

  /** The particle of row `zz`, column `xx` sits at row-major index `zz * cx + xx` of the sheet. */
  lemma {:induction false} ClothSheetAt(llx: int, lly: int, spacing: Vec3, cx: nat, z: nat, zz: nat, xx: nat)
    requires zz < z && xx < cx
    ensures Times(zz, cx) + xx < |ClothSheet(llx, lly, spacing, cx, z)|
    ensures ClothSheet(llx, lly, spacing, cx, z)[Times(zz, cx) + xx] == ClothPoint(llx, lly, spacing, zz, xx)
  {
    ClothSheetLength(llx, lly, spacing, cx, z - 1);
    var prev := ClothSheet(llx, lly, spacing, cx, z - 1);
    var row := ClothRow(llx, lly, spacing, cx, z - 1);
    assert ClothSheet(llx, lly, spacing, cx, z) == prev + row;
    if zz < z - 1 {
      ClothSheetAt(llx, lly, spacing, cx, z - 1, zz, xx);
      assert (prev + row)[Times(zz, cx) + xx] == prev[Times(zz, cx) + xx];
    } else {
      assert (prev + row)[|prev| + xx] == row[xx];
    }
  }

  /** Writing cell (z, x) appends its position. */
  lemma ClothPositionsSnoc(llx: int, lly: int, spacing: Vec3, cx: nat, z: nat, x: nat)
    requires x < cx
    ensures ClothPositionsBefore(llx, lly, spacing, cx, z, x + 1) ==
            ClothPositionsBefore(llx, lly, spacing, cx, z, x) + [ClothPoint(llx, lly, spacing, z, x)]
  {
    var row := ClothRow(llx, lly, spacing, cx, z);
    assert row[..x + 1] == row[..x] + [row[x]];
  }

  /** A completed row is the start of the next. */
  lemma ClothPositionsNextRow(llx: int, lly: int, spacing: Vec3, cx: nat, z: nat)
    ensures ClothPositionsBefore(llx, lly, spacing, cx, z, cx) == ClothPositionsBefore(llx, lly, spacing, cx, z + 1, 0)
  {
    var row := ClothRow(llx, lly, spacing, cx, z);
    assert row[..cx] == row;
  }

  /** The links before cell (z, x) number `DistsBefore` and are all cloth links. */
  lemma {:induction false} ClothLinksFacts(start: int, cx: nat, cy: nat, distX: real, distY: real, z: nat, x: nat)
    requires x <= cx && (z < cy || (z == cy && x == 0))
    ensures |ClothLinksBefore(start, cx, distX, distY, z, x)| == DistsBefore(cx, z, x)
    ensures forall k | 0 <= k < |ClothLinksBefore(start, cx, distX, distY, z, x)| ::
              ClothLink(ClothLinksBefore(start, cx, distX, distY, z, x)[k], start, cx, Times(cy, cx), distX, distY)
    decreases z, x
  {
    if x == 0 {
      if z > 0 {
        ClothLinksFacts(start, cx, cy, distX, distY, z - 1, cx);
        if cx > 0 { DistsBeforeRow(cx, z - 1); }
      }
    } else {
      ClothLinksFacts(start, cx, cy, distX, distY, z, x - 1);
      DistsBeforeStep(cx, cy, z, x - 1);
      RowMajorBound(z, x - 1, cx, cy);
      if x - 1 > 0 {
        HorizontalNeighbour(start, z, x - 1, cx);
      }
    }
  }

  /** The point constraints cell (z, x) writes, and the sized total is never overrun. */
  lemma PointsBeforeStep(cx: nat, cy: nat, holdEdges: bool, z: nat, x: nat)
    requires z < cy && x < cx
    ensures PointsBefore(cx, cy, holdEdges, z, x + 1) ==
            PointsBefore(cx, cy, holdEdges, z, x) + CellAnchorCount(cx, cy, holdEdges, z, x)
    ensures PointsBefore(cx, cy, holdEdges, z, x + 1) <= PointsBefore(cx, cy, holdEdges, cy, 0)
  {
  }

  /** After the last row, exactly the sized number of point constraints was written. */
  lemma PointsBeforeAll(cx: nat, cy: nat, holdEdges: bool)
    ensures PointsBefore(cx, cy, holdEdges, cy, 0) == ClothPointCount(cx, cy, holdEdges)
  {
  }

  /** The anchors before cell (z, x) number `PointsBefore`. */
  lemma {:induction false} ClothAnchorsCount(start: int, llx: int, lly: int, spacing: Vec3, cx: nat, cy: nat,
                                             holdEdges: bool, z: nat, x: nat)
    requires x <= cx && (z < cy || (z == cy && x == 0))
    ensures |ClothAnchorsBefore(start, llx, lly, spacing, cx, cy, holdEdges, z, x)| == PointsBefore(cx, cy, holdEdges, z, x)
    decreases z, x
  {
    if x == 0 {
      if z > 0 {
        ClothAnchorsCount(start, llx, lly, spacing, cx, cy, holdEdges, z - 1, cx);
      }
    } else {
      ClothAnchorsCount(start, llx, lly, spacing, cx, cy, holdEdges, z, x - 1);
      PointsBeforeStep(cx, cy, holdEdges, z, x - 1);
    }
  }

  /** Each anchor before cell (z, x) pins an already written particle to that particle's position. */
  lemma {:induction false} ClothAnchorsPinned(start: int, llx: int, lly: int, spacing: Vec3, cx: nat, cy: nat,
                                              holdEdges: bool, z: nat, x: nat)
    requires x <= cx
    ensures AnchorsPinned(ClothAnchorsBefore(start, llx, lly, spacing, cx, cy, holdEdges, z, x),
                          ClothPositionsBefore(llx, lly, spacing, cx, z, x), start)
    decreases z, x
  {
    var an := ClothAnchorsBefore(start, llx, lly, spacing, cx, cy, holdEdges, z, x);
    var ps := ClothPositionsBefore(llx, lly, spacing, cx, z, x);
    if x == 0 {
      if z > 0 {
        ClothAnchorsPinned(start, llx, lly, spacing, cx, cy, holdEdges, z - 1, cx);
        ClothPositionsNextRow(llx, lly, spacing, cx, z - 1);
      }
    } else {
      ClothAnchorsPinned(start, llx, lly, spacing, cx, cy, holdEdges, z, x - 1);
      ClothPositionsSnoc(llx, lly, spacing, cx, z, x - 1);
      ClothSheetLength(llx, lly, spacing, cx, z);
      var an0 := ClothAnchorsBefore(start, llx, lly, spacing, cx, cy, holdEdges, z, x - 1);
      var ps0 := ClothPositionsBefore(llx, lly, spacing, cx, z, x - 1);
      var here := ClothPoint(llx, lly, spacing, z, x - 1);
      assert |ps0| == Times(z, cx) + x - 1;
      assert ps == ps0 + [here];
      assert an == an0 + CellAnchors(start, cx, cy, holdEdges, z, x - 1, here);
      AnchorsPinnedSnoc(an0, ps0, start, here, CellAnchorCount(cx, cy, holdEdges, z, x - 1));
    }
  }

  /** Anchors that pin a newly appended particle to its own position keep every anchor pinned. */
  lemma AnchorsPinnedSnoc(an: seq<PointConstraint>, ps: seq<Float4>, start: int, here: Float4, n: nat)
    requires AnchorsPinned(an, ps, start)
    ensures AnchorsPinned(an + Repeat(PointConstraint(start + |ps|, Xyz(here)), n), ps + [here], start)
  {
    var an' := an + Repeat(PointConstraint(start + |ps|, Xyz(here)), n);
    var ps' := ps + [here];
    forall k | 0 <= k < |an'|
      ensures start <= an'[k].index < start + |ps'| && an'[k].anchor == Xyz(ps'[an'[k].index - start])
    {
      if k < |an| {
        assert an'[k] == an[k];
        assert ps'[an[k].index - start] == ps[an[k].index - start];
      } else {
        assert an'[k] == PointConstraint(start + |ps|, Xyz(here));
      }
    }
  }

  /** Without `holdEdges`, the k-th anchor pins the first particle of row k. */
  lemma {:induction false} ClothAnchorsFirstColumn(start: int, llx: int, lly: int, spacing: Vec3, cx: nat, cy: nat,
                                                   z: nat, x: nat)
    requires x <= cx && (z < cy || (z == cy && x == 0))
    ensures var an := ClothAnchorsBefore(start, llx, lly, spacing, cx, cy, false, z, x);
            forall k | 0 <= k < |an| :: an[k].index == start + Times(k, cx)
    decreases z, x
  {
    ClothAnchorsCount(start, llx, lly, spacing, cx, cy, false, z, x);
    if x == 0 {
      if z > 0 {
        ClothAnchorsFirstColumn(start, llx, lly, spacing, cx, cy, z - 1, cx);
      }
    } else {
      ClothAnchorsFirstColumn(start, llx, lly, spacing, cx, cy, z, x - 1);
      ClothAnchorsCount(start, llx, lly, spacing, cx, cy, false, z, x - 1);
    }
  }

  /** Appends `v` to the written prefix `a[..n]` of `a`. */
  method Push<T>(a: array<T>, n: nat, v: T) returns (n': nat)
    requires n < a.Length
    modifies a
    ensures n' == n + 1 && a[..n'] == old(a[..n]) + [v]
  {
    a[n] := v;
    n' := n + 1;
  }

  /**
   * The body of `addHorizCloth`'s loops for cell (z, x): one position, then its links and anchors.
   * The source interleaves the writes to the two constraint arrays; they are distinct arrays, so
   * writing the links first and the anchors second leaves the same contents.
   */
  method WriteClothCell(p: array<Float4>, indicesP: array<PointConstraint>, indicesD: array<DistanceConstraint>,
                        index: nat, pi: nat, di: nat,
                        start: int, llx: int, lly: int, spacing: Vec3, distX: real, distY: real,
                        cx: nat, cy: nat, holdEdges: bool, z: nat, x: nat)
    returns (pi': nat, di': nat)
    requires index == Times(z, cx) + x && index < p.Length
    requires di + (if x > 0 then 1 else 0) + (if z > 0 then 1 else 0) <= indicesD.Length
    requires pi + CellAnchorCount(cx, cy, holdEdges, z, x) <= indicesP.Length
    modifies p, indicesP, indicesD
    ensures di' == di + (if x > 0 then 1 else 0) + (if z > 0 then 1 else 0)
    ensures pi' == pi + CellAnchorCount(cx, cy, holdEdges, z, x)
    ensures p[..index + 1] == old(p[..index]) + [ClothPoint(llx, lly, spacing, z, x)]
    ensures indicesD[..di'] == old(indicesD[..di]) + CellLinks(start, cx, distX, distY, z, x)
    ensures indicesP[..pi'] == old(indicesP[..pi]) + CellAnchors(start, cx, cy, holdEdges, z, x, ClothPoint(llx, lly, spacing, z, x))
  {
    var here := ClothPoint(llx, lly, spacing, z, x);
    p[index] := here;
    assert p[..index + 1] == old(p[..index]) + [here];
    di' := WriteCellLinks(indicesD, di, start, cx, distX, distY, z, x);
    pi' := WriteCellAnchors(indicesP, pi, PointConstraint(start + Times(z, cx) + x, Xyz(here)), cx, cy, holdEdges, z, x);
  }

  /** The distance constraints of cell (z, x): to its left neighbour, then to the one in the row before. */
  method WriteCellLinks(indicesD: array<DistanceConstraint>, di: nat, start: int, cx: nat, distX: real, distY: real,
                        z: nat, x: nat)
    returns (di': nat)
    requires di + (if x > 0 then 1 else 0) + (if z > 0 then 1 else 0) <= indicesD.Length
    modifies indicesD
    ensures di' == di + (if x > 0 then 1 else 0) + (if z > 0 then 1 else 0)
    ensures indicesD[..di'] == old(indicesD[..di]) + CellLinks(start, cx, distX, distY, z, x)
  {
    var particleIndex := start + Times(z, cx) + x;
    di' := di;
    if x > 0 {
      di' := Push(indicesD, di', DistanceConstraint(particleIndex - 1, particleIndex, distX));
    }
    if z > 0 {
      di' := Push(indicesD, di', DistanceConstraint(particleIndex - cx, particleIndex, distY));
    }
  }

  /** The point constraints of cell (z, x), each a copy of `a`, one per border condition it meets. */
  method WriteCellAnchors(indicesP: array<PointConstraint>, pi: nat, a: PointConstraint,
                          cx: nat, cy: nat, holdEdges: bool, z: nat, x: nat)
    returns (pi': nat)
    requires pi + CellAnchorCount(cx, cy, holdEdges, z, x) <= indicesP.Length
    modifies indicesP
    ensures pi' == pi + CellAnchorCount(cx, cy, holdEdges, z, x)
    ensures indicesP[..pi'] == old(indicesP[..pi]) + Repeat(a, CellAnchorCount(cx, cy, holdEdges, z, x))
  {
    ghost var A0 := indicesP[..pi];
    pi' := PushWhen(indicesP, pi, a, x == 0);
    RepeatGrow(A0, a, 0, x == 0);
    ghost var k := pi' - pi;
    pi' := PushWhen(indicesP, pi', a, z == 0 && holdEdges);
    RepeatGrow(A0, a, k, z == 0 && holdEdges);
    k := pi' - pi;
    pi' := PushWhen(indicesP, pi', a, x == cx - 1 && holdEdges);
    RepeatGrow(A0, a, k, x == cx - 1 && holdEdges);
    k := pi' - pi;
    pi' := PushWhen(indicesP, pi', a, z == cy - 1 && holdEdges);
    RepeatGrow(A0, a, k, z == cy - 1 && holdEdges);
  }

  /** Appends `v` to the written prefix `a[..n]` of `a` when `c` holds. */
  method PushWhen<T>(a: array<T>, n: nat, v: T, c: bool) returns (n': nat)
    requires n + (if c then 1 else 0) <= a.Length
    modifies a
    ensures n' == n + (if c then 1 else 0) && a[..n'] == old(a[..n]) + (if c then [v] else [])
  {
    n' := n;
    if c {
      n' := Push(a, n, v);
    }
  }

  /** One more optional copy extends a run of copies. */
  lemma RepeatGrow<T>(s: seq<T>, a: T, k: nat, c: bool)
    ensures s + Repeat(a, k) + (if c then [a] else []) == s + Repeat(a, k + (if c then 1 else 0))
  {
    if c {
      assert Repeat(a, k + 1) == Repeat(a, k) + [a];
    }
  }

  /** `addHorizCloth`'s inner loop: the cells of row `z`, left to right. */
  method FillClothRow(p: array<Float4>, indicesP: array<PointConstraint>, indicesD: array<DistanceConstraint>,
                      index: nat, pi: nat, di: nat,
                      start: int, llx: int, lly: int, spacing: Vec3, distX: real, distY: real,
                      cx: nat, cy: nat, holdEdges: bool, z: nat)
    returns (index': nat, pi': nat, di': nat)
    requires z < cy && index == Times(z, cx) && p.Length == Times(cy, cx)
    requires di == DistsBefore(cx, z, 0) && indicesD.Length == DistsBefore(cx, cy, 0)
    requires pi == PointsBefore(cx, cy, holdEdges, z, 0) && indicesP.Length == PointsBefore(cx, cy, holdEdges, cy, 0)
    requires index <= p.Length && di <= indicesD.Length && pi <= indicesP.Length
    requires p[..index] == ClothPositionsBefore(llx, lly, spacing, cx, z, 0)
    requires indicesD[..di] == ClothLinksBefore(start, cx, distX, distY, z, 0)
    requires indicesP[..pi] == ClothAnchorsBefore(start, llx, lly, spacing, cx, cy, holdEdges, z, 0)
    modifies p, indicesP, indicesD
    ensures index' == Times(z, cx) + cx && di' == DistsBefore(cx, z, cx) && pi' == PointsBefore(cx, cy, holdEdges, z, cx)
    ensures index' <= p.Length && di' <= indicesD.Length && pi' <= indicesP.Length
    ensures p[..index'] == ClothPositionsBefore(llx, lly, spacing, cx, z, cx)
    ensures indicesD[..di'] == ClothLinksBefore(start, cx, distX, distY, z, cx)
    ensures indicesP[..pi'] == ClothAnchorsBefore(start, llx, lly, spacing, cx, cy, holdEdges, z, cx)
  {
    index', pi', di' := index, pi, di;
    var x := 0;
    while x < cx
      invariant 0 <= x <= cx
      invariant index' == Times(z, cx) + x
      invariant di' == DistsBefore(cx, z, x) && pi' == PointsBefore(cx, cy, holdEdges, z, x)
      invariant index' <= p.Length && di' <= indicesD.Length && pi' <= indicesP.Length
      invariant p[..index'] == ClothPositionsBefore(llx, lly, spacing, cx, z, x)
      invariant indicesD[..di'] == ClothLinksBefore(start, cx, distX, distY, z, x)
      invariant indicesP[..pi'] == ClothAnchorsBefore(start, llx, lly, spacing, cx, cy, holdEdges, z, x)
    {
      RowMajorBound(z, x, cx, cy);
      DistsBeforeStep(cx, cy, z, x);
      PointsBeforeStep(cx, cy, holdEdges, z, x);
      ClothPositionsSnoc(llx, lly, spacing, cx, z, x);
      pi', di' := WriteClothCell(p, indicesP, indicesD, index', pi', di', start, llx, lly, spacing, distX, distY,
                                 cx, cy, holdEdges, z, x);
      index' := index' + 1;
      x := x + 1;
    }
  }

  /** Cell (z, cx), one past the last of row `z`, is cell (z + 1, 0): every count and prefix agrees. */
  lemma ClothNextRow(start: int, llx: int, lly: int, spacing: Vec3, distX: real, distY: real,
                     cx: nat, cy: nat, holdEdges: bool, z: nat)
    requires z < cy
    ensures Times(z, cx) + cx == Times(z + 1, cx) <= Times(cy, cx)
    ensures DistsBefore(cx, z, cx) == DistsBefore(cx, z + 1, 0)
    ensures PointsBefore(cx, cy, holdEdges, z, cx) == PointsBefore(cx, cy, holdEdges, z + 1, 0)
    ensures ClothPositionsBefore(llx, lly, spacing, cx, z, cx) == ClothPositionsBefore(llx, lly, spacing, cx, z + 1, 0)
    ensures ClothLinksBefore(start, cx, distX, distY, z, cx) == ClothLinksBefore(start, cx, distX, distY, z + 1, 0)
    ensures ClothAnchorsBefore(start, llx, lly, spacing, cx, cy, holdEdges, z, cx) ==
            ClothAnchorsBefore(start, llx, lly, spacing, cx, cy, holdEdges, z + 1, 0)
  {
    TimesMonotone(z + 1, cy, cx);
    ClothPositionsNextRow(llx, lly, spacing, cx, z);
    if cx > 0 { DistsBeforeRow(cx, z); }
  }

  /** `addHorizCloth`'s outer loop: the rows, front to back. */
  method FillCloth(p: array<Float4>, indicesP: array<PointConstraint>, indicesD: array<DistanceConstraint>,
                   start: int, llx: int, lly: int, spacing: Vec3, distX: real, distY: real,
                   cx: nat, cy: nat, holdEdges: bool)
    requires p.Length == Times(cy, cx)
    requires indicesD.Length == DistsBefore(cx, cy, 0)
    requires indicesP.Length == PointsBefore(cx, cy, holdEdges, cy, 0)
    modifies p, indicesP, indicesD
    ensures p[..] == ClothPositionsBefore(llx, lly, spacing, cx, cy, 0)
    ensures indicesD[..] == ClothLinksBefore(start, cx, distX, distY, cy, 0)
    ensures indicesP[..] == ClothAnchorsBefore(start, llx, lly, spacing, cx, cy, holdEdges, cy, 0)
  {
    var index, pi, di := 0, 0, 0;
    var z := 0;
    while z < cy
      invariant 0 <= z <= cy
      invariant index == Times(z, cx) && di == DistsBefore(cx, z, 0) && pi == PointsBefore(cx, cy, holdEdges, z, 0)
      invariant index <= p.Length && di <= indicesD.Length && pi <= indicesP.Length
      invariant p[..index] == ClothPositionsBefore(llx, lly, spacing, cx, z, 0)
      invariant indicesD[..di] == ClothLinksBefore(start, cx, distX, distY, z, 0)
      invariant indicesP[..pi] == ClothAnchorsBefore(start, llx, lly, spacing, cx, cy, holdEdges, z, 0)
    {
      index, pi, di := FillClothRow(p, indicesP, indicesD, index, pi, di, start, llx, lly, spacing, distX, distY,
                                    cx, cy, holdEdges, z);
      ClothNextRow(start, llx, lly, spacing, distX, distY, cx, cy, holdEdges, z);
      z := z + 1;
    }
    assert p[..] == p[..index];
    assert indicesD[..] == indicesD[..di];
    assert indicesP[..] == indicesP[..pi];
  }

  /** The positions of a whole sheet, indexed row-major. */
  lemma ClothPositionsRowMajor(llx: int, lly: int, spacing: Vec3, cx: nat, cy: nat)
    ensures |ClothPositionsBefore(llx, lly, spacing, cx, cy, 0)| == cx * cy
    ensures forall z, x | 0 <= z < cy && 0 <= x < cx ::
              z * cx + x < cx * cy &&
              ClothPositionsBefore(llx, lly, spacing, cx, cy, 0)[z * cx + x] == ClothPoint(llx, lly, spacing, z, x)
  {
    var ps := ClothPositionsBefore(llx, lly, spacing, cx, cy, 0);
    assert ps == ClothSheet(llx, lly, spacing, cx, cy);
    ClothSheetLength(llx, lly, spacing, cx, cy);
    TimesIsProduct(cy, cx);
    forall z, x | 0 <= z < cy && 0 <= x < cx
      ensures z * cx + x < cx * cy && ps[z * cx + x] == ClothPoint(llx, lly, spacing, z, x)
    {
      ClothSheetAt(llx, lly, spacing, cx, cy, z, x);
      TimesIsProduct(z, cx);
    }
  }

  /** The links of a whole sheet: as many as sized, all cloth links. */
  lemma ClothLinksValid(start: int, cx: nat, cy: nat, distX: real, distY: real)
    ensures |ClothLinksBefore(start, cx, distX, distY, cy, 0)| == ClothDistCount(cx, cy)
    ensures forall k | 0 <= k < |ClothLinksBefore(start, cx, distX, distY, cy, 0)| ::
              ClothLink(ClothLinksBefore(start, cx, distX, distY, cy, 0)[k], start, cx, cx * cy, distX, distY)
  {
    ClothLinksFacts(start, cx, cy, distX, distY, cy, 0);
    DistsBeforeAll(cx, cy);
    TimesIsProduct(cy, cx);
  }

  /** Without `holdEdges`, the anchors of a whole sheet pin the first particle of each row. */
  lemma ClothAnchorsRowStarts(start: int, llx: int, lly: int, spacing: Vec3, cx: nat, cy: nat)
    ensures forall k | 0 <= k < |ClothAnchorsBefore(start, llx, lly, spacing, cx, cy, false, cy, 0)| ::
              ClothAnchorsBefore(start, llx, lly, spacing, cx, cy, false, cy, 0)[k].index == start + k * cx
  {
    var an := ClothAnchorsBefore(start, llx, lly, spacing, cx, cy, false, cy, 0);
    ClothAnchorsFirstColumn(start, llx, lly, spacing, cx, cy, cy, 0);
    forall k | 0 <= k < |an|
      ensures an[k].index == start + k * cx
    {
      TimesIsProduct(k, cx);
    }
  }

  /**
   * `addHorizCloth`'s arrays for a `cx` by `cy` sheet, sized by the counts
   * the loop writes: every slot of each array is filled, every distance
   * constraint joins grid neighbours, and every anchor is its particle's
   * initial position (the first column only, unless `holdEdges`).
   */
  method ClothArrays(start: int, llx: int, lly: int, spacing: Vec3, distX: real, distY: real,
                     cx: nat, cy: nat, holdEdges: bool)
    returns (pos: seq<Float4>, anchors: seq<PointConstraint>, links: seq<DistanceConstraint>)
    ensures |pos| == cx * cy
    ensures forall z, x | 0 <= z < cy && 0 <= x < cx ::
              z * cx + x < |pos| && pos[z * cx + x] == ClothPoint(llx, lly, spacing, z, x)
    ensures |links| == ClothDistCount(cx, cy)
    ensures forall k | 0 <= k < |links| :: ClothLink(links[k], start, cx, cx * cy, distX, distY)
    ensures |anchors| == ClothPointCount(cx, cy, holdEdges)
    ensures AnchorsPinned(anchors, pos, start)
    ensures !holdEdges ==> forall k | 0 <= k < |anchors| :: anchors[k].index == start + k * cx
    ensures pos == ClothSheet(llx, lly, spacing, cx, cy)
    ensures links == ClothLinksBefore(start, cx, distX, distY, cy, 0)
    ensures anchors == ClothAnchorsBefore(start, llx, lly, spacing, cx, cy, holdEdges, cy, 0)
  {
    var arraySize := cx * cy;
    var numDists := ClothDistCount(cx, cy);
    var numPoints := ClothPointCount(cx, cy, holdEdges);
    TimesIsProduct(cy, cx);
    DistsBeforeAll(cx, cy);
    PointsBeforeAll(cx, cy, holdEdges);
    var p := new Float4[arraySize];
    var indicesP := new PointConstraint[numPoints];
    var indicesD := new DistanceConstraint[numDists];
    FillCloth(p, indicesP, indicesD, start, llx, lly, spacing, distX, distY, cx, cy, holdEdges);
    pos, anchors, links := p[..], indicesP[..], indicesD[..];
    assert pos == ClothSheet(llx, lly, spacing, cx, cy);

    ClothPositionsRowMajor(llx, lly, spacing, cx, cy);

    ClothLinksValid(start, cx, cy, distX, distY);
    ClothAnchorsCount(start, llx, lly, spacing, cx, cy, holdEdges, cy, 0);
    ClothAnchorsPinned(start, llx, lly, spacing, cx, cy, holdEdges, cy, 0);
    if !holdEdges {
      ClothAnchorsRowStarts(start, llx, lly, spacing, cx, cy);
    }
  }

  // ---------------------------------------------------------------------
  // Deformable cube

  /** The cube particle at offset (x, y, z) in {-1, 0, 1}^3 around `position`. */
  function CubePoint(position: IVec3, d: real, x: int, y: int, z: int): Float4
  {
    Float4(position.x as real + x as real * d, position.y as real + y as real * d,
           position.z as real + z as real * d, 1.0)
  }

  /** `addDeformableCube`'s 27 positions, z-major, at spacing `d`. */
  method CubePositions(position: IVec3, d: real) returns (pos: seq<Float4>)
    ensures |pos| == 27
    ensures forall z, y, x | -1 <= z <= 1 && -1 <= y <= 1 && -1 <= x <= 1 ::
              pos[(z + 1) * 9 + (y + 1) * 3 + (x + 1)] == CubePoint(position, d, x, y, z)
  {
    var p := new Float4[27];
    var index := 0;
    for z := -1 to 2
      invariant index == (z + 1) * 9
      invariant forall zz, yy, xx | -1 <= zz < z && -1 <= yy <= 1 && -1 <= xx <= 1 ::
                  p[(zz + 1) * 9 + (yy + 1) * 3 + (xx + 1)] == CubePoint(position, d, xx, yy, zz)
    {
      for y := -1 to 2
        invariant index == (z + 1) * 9 + (y + 1) * 3
        invariant forall zz, yy, xx | -1 <= xx <= 1 && -1 <= yy <= 1 && -1 <= zz <= z && (zz < z || yy < y) ::
                    p[(zz + 1) * 9 + (yy + 1) * 3 + (xx + 1)] == CubePoint(position, d, xx, yy, zz)
      {
        for x := -1 to 2
          invariant index == (z + 1) * 9 + (y + 1) * 3 + (x + 1)
          invariant forall zz, yy, xx | -1 <= xx <= 1 && -1 <= yy <= 1 && -1 <= zz <= z &&
                                        (zz < z || yy < y || (yy == y && xx < x)) ::
                      p[(zz + 1) * 9 + (yy + 1) * 3 + (xx + 1)] == CubePoint(position, d, xx, yy, zz)
        {
          p[index] := CubePoint(position, d, x, y, z);
          index := index + 1;
        }
      }
    }
    pos := p[..];
  }

  /**
   * A cube constraint: it joins two of the 27 particles that are
   * neighbours along one axis (a step of 9 in z, 3 in y within a plane,
   * 1 in x within a row), at rest length `d`.
   */
  predicate CubeLink(l: DistanceConstraint, start: int, d: real)
  {
    l.rest == d && start <= l.i && l.j < start + 27 &&
    (l.j == l.i + 9 ||
     (l.j == l.i + 3 && ((l.i - start) / 3) % 3 != 2) ||
     (l.j == l.i + 1 && (l.i - start) % 3 != 2))
  }

  /** The order in which the cube loop emits constraints: by first index, then by decreasing step. */
  predicate EmittedBefore(a: DistanceConstraint, b: DistanceConstraint)
  {
    a.i < b.i || (a.i == b.i && a.j > b.j)
  }

  /** Constraints emitted by the cube loop before cell (z, y, x). */
  function CubeLinksBefore(z: int, y: int, x: int): int
  {
    var cells := 9 * z + 3 * y + x;
    var inPlane := 3 * y + x;
    (if cells < 18 then cells else 18) + 6 * z + (if inPlane < 6 then inPlane else 6)
    + 6 * z + 2 * y + (if x < 2 then x else 2)
  }

  /** What the cube loop has emitted before the cell whose index is `next`, as its invariant. */
  predicate CubeLinksSoFar(links: seq<DistanceConstraint>, start: int, d: real, next: int)
  {
    (forall k | 0 <= k < |links| :: CubeLink(links[k], start, d) && links[k].i < next) &&
    (forall a, b | 0 <= a < b < |links| :: EmittedBefore(links[a], links[b]))
  }

  /** The row and column digits of a cube cell's offset `9z + 3y + x`. */
  lemma CubeDigits(z: nat, y: nat, x: nat)
    requires y < 3 && x < 3
    ensures ((9 * z + 3 * y + x) / 3) % 3 == y && (9 * z + 3 * y + x) % 3 == x
  {
    assert (9 * z + 3 * y + x) / 3 == 3 * z + y;
  }

  /** Appending a cube link that comes after every emitted one keeps the loop's invariant. */
  lemma PushCubeLink(links: seq<DistanceConstraint>, l: DistanceConstraint, start: int, d: real)
    requires CubeLinksSoFar(links, start, d, l.i + 1)
    requires forall k | 0 <= k < |links| :: EmittedBefore(links[k], l)
    requires CubeLink(l, start, d)
    ensures CubeLinksSoFar(links + [l], start, d, l.i + 1)
  {
  }

  /** The neighbour links a cube cell may emit are cube links. */
  lemma CubeNeighbourLinks(start: int, d: real, z: nat, y: nat, x: nat, c: int)
    requires z < 3 && y < 3 && x < 3 && c == start + z * 9 + y * 3 + x
    ensures z != 2 ==> CubeLink(DistanceConstraint(c, c + 9, d), start, d)
    ensures y != 2 ==> CubeLink(DistanceConstraint(c, c + 3, d), start, d)
    ensures x != 2 ==> CubeLink(DistanceConstraint(c, c + 1, d), start, d)
  {
    CubeDigits(z, y, x);
    assert c - start == 9 * z + 3 * y + x;
  }

  /** A cell emits one link per axis on which it has a successor. */
  lemma CubeCountStep(z: nat, y: nat, x: nat)
    requires z < 3 && y < 3 && x < 3
    ensures CubeLinksBefore(z, y, x + 1) ==
            CubeLinksBefore(z, y, x) + (if z != 2 then 1 else 0) + (if y != 2 then 1 else 0) + (if x != 2 then 1 else 0)
  {
  }

  /** One cell of the cube loop: the links to the z, y and x neighbours that exist. */
  method CubeCell(start: int, d: real, z: nat, y: nat, x: nat, links: seq<DistanceConstraint>)
    returns (links': seq<DistanceConstraint>)
    requires z < 3 && y < 3 && x < 3
    requires |links| == CubeLinksBefore(z, y, x)
    requires CubeLinksSoFar(links, start, d, start + 9 * z + 3 * y + x)
    ensures |links'| == CubeLinksBefore(z, y, x + 1)
    ensures CubeLinksSoFar(links', start, d, start + 9 * z + 3 * y + x + 1)
  {
    var currentIndex := start + z * 9 + y * 3 + x;
    CubeNeighbourLinks(start, d, z, y, x, currentIndex);
    CubeCountStep(z, y, x);
    links' := links;
    if z != 2 {
      var l := DistanceConstraint(currentIndex, currentIndex + 9, d);
      PushCubeLink(links', l, start, d);
      links' := links' + [l];
    }
    assert forall k | 0 <= k < |links'| :: links'[k].i < currentIndex || links'[k].j >= currentIndex + 9;
    if y != 2 {
      var l := DistanceConstraint(currentIndex, currentIndex + 3, d);
      PushCubeLink(links', l, start, d);
      links' := links' + [l];
    }
    assert forall k | 0 <= k < |links'| :: links'[k].i < currentIndex || links'[k].j >= currentIndex + 3;
    if x != 2 {
      var l := DistanceConstraint(currentIndex, currentIndex + 1, d);
      PushCubeLink(links', l, start, d);
      links' := links' + [l];
    }
  }

  /**
   * `addDeformableCube`'s constraint loop: 54 constraints, each joining
   * axis neighbours among `[start, start + 27)` at rest `d`, emitted in a
   * strict order (so no pair is registered twice).
   */
  method CubeLinks(start: int, d: real) returns (links: seq<DistanceConstraint>)
    ensures |links| == 54
    ensures forall k | 0 <= k < |links| :: CubeLink(links[k], start, d)
    ensures forall a, b | 0 <= a < b < |links| :: EmittedBefore(links[a], links[b])
  {
    links := [];
    for z := 0 to 3
      invariant |links| == CubeLinksBefore(z, 0, 0)
      invariant CubeLinksSoFar(links, start, d, start + 9 * z)
    {
      for y := 0 to 3
        invariant |links| == CubeLinksBefore(z, y, 0)
        invariant CubeLinksSoFar(links, start, d, start + 9 * z + 3 * y)
      {
        for x := 0 to 3
          invariant |links| == CubeLinksBefore(z, y, x)
          invariant CubeLinksSoFar(links, start, d, start + 9 * z + 3 * y + x)
        {
          links := CubeCell(start, d, z, y, x, links);
        }
      }
    }
  }

  // ---------------------------------------------------------------------
  // Block grids (fluid blocks, particle grids, static spheres)

  /**
   * The per-axis particle count of a block builder: the float quotient
   * `(hi - lo) / d` converted to int, which truncates.
   */
  function GridCount(lo: int, hi: int, d: real): nat
    requires lo <= hi && d > 0.0
  {
    Trunc((hi - lo) as real / d)
  }

  /** The block particle at lattice index (i, j, k), with `w = 1`. */
  function GridPoint(ll: IVec3, d: real, i: int, j: int, k: int): Float4
  {
    Float4(ll.x as real + i as real * d, ll.y as real + j as real * d, ll.z as real + k as real * d, 1.0)
  }

  /** `p` is one of the block's lattice points. */
  ghost predicate OnGrid(p: Float4, ll: IVec3, d: real, cx: nat, cy: nat, cz: nat)
  {
    exists i, j, k | 0 <= i < cx && 0 <= j < cy && 0 <= k < cz :: p == GridPoint(ll, d, i, j, k)
  }

  /** The `i`-th lattice coordinate of a block lies inside the block's extent [lo, hi). */
  lemma GridCoordinateInBox(lo: int, hi: int, d: real, i: int)
    requires lo <= hi && d > 0.0
    requires 0 <= i < GridCount(lo, hi, d)
    ensures lo as real <= lo as real + i as real * d < hi as real
  {
    var q := (hi - lo) as real / d;
    var n := GridCount(lo, hi, d);
    assert q * d == (hi - lo) as real;
    assert (n as real) <= q;
    assert i as real + 1.0 <= n as real;
    assert (i as real + 1.0) * d <= q * d;
    assert i as real * d + d == (i as real + 1.0) * d;
  }

  /** Every particle a block builder places starts inside its declared box [ll, ur). */
  lemma GridPointsInBox(ll: IVec3, ur: IVec3, d: real, p: Float4)
    requires ll.x <= ur.x && ll.y <= ur.y && ll.z <= ur.z && d > 0.0
    requires OnGrid(p, ll, d, GridCount(ll.x, ur.x, d), GridCount(ll.y, ur.y, d), GridCount(ll.z, ur.z, d))
    ensures ll.x as real <= p.x < ur.x as real
    ensures ll.y as real <= p.y < ur.y as real
    ensures ll.z as real <= p.z < ur.z as real
  {
    var i, j, k :| 0 <= i < GridCount(ll.x, ur.x, d) && 0 <= j < GridCount(ll.y, ur.y, d) &&
                   0 <= k < GridCount(ll.z, ur.z, d) && p == GridPoint(ll, d, i, j, k);
    GridCoordinateInBox(ll.x, ur.x, d, i);
    GridCoordinateInBox(ll.y, ur.y, d, j);
    GridCoordinateInBox(ll.z, ur.z, d, k);
  }

  /** Row `j` of plane `k`: the points with x-index 0 .. cx-1. */
  function GridRow(ll: IVec3, d: real, cx: nat, j: nat, k: nat): seq<Float4>
  {
    seq(cx, i => GridPoint(ll, d, i, j, k))
  }

  /** The first `j` rows of plane `k`. */
  function GridPlane(ll: IVec3, d: real, cx: nat, j: nat, k: nat): seq<Float4>
  {
    if j == 0 then [] else GridPlane(ll, d, cx, j - 1, k) + GridRow(ll, d, cx, j - 1, k)
  }

  /** The first `k` planes of a block with `cy` rows per plane: the z-major scan order. */
  function GridBlock(ll: IVec3, d: real, cx: nat, cy: nat, k: nat): seq<Float4>
  {
    if k == 0 then [] else GridBlock(ll, d, cx, cy, k - 1) + GridPlane(ll, d, cx, cy, k - 1)
  }

  /** `p` is one of the points of the first `j` rows of plane `k`. */
  ghost predicate OnPlane(p: Float4, ll: IVec3, d: real, cx: nat, j: nat, k: nat)
  {
    exists i, jj | 0 <= i < cx && 0 <= jj < j :: p == GridPoint(ll, d, i, jj, k)
  }

  lemma {:induction false} GridPlaneMembers(ll: IVec3, d: real, cx: nat, j: nat, k: nat, p: Float4)
    ensures p in GridPlane(ll, d, cx, j, k) <==> OnPlane(p, ll, d, cx, j, k)
  {
    if j > 0 {
      GridPlaneMembers(ll, d, cx, j - 1, k, p);
      var jm := j - 1;
      var row := GridRow(ll, d, cx, jm, k);
      if p in row {
        var i :| 0 <= i < cx && row[i] == p;
        assert p == GridPoint(ll, d, i, jm, k);
      }
      if exists i | 0 <= i < cx :: p == GridPoint(ll, d, i, jm, k) {
        var i :| 0 <= i < cx && p == GridPoint(ll, d, i, jm, k);
        assert row[i] == p;
      }
    }
  }

  /** The lattice points of `k` planes are those of the first `k - 1` and those of plane `k - 1`. */
  lemma OnGridStep(p: Float4, ll: IVec3, d: real, cx: nat, cy: nat, k: nat)
    requires k > 0
    ensures OnGrid(p, ll, d, cx, cy, k) <==> OnGrid(p, ll, d, cx, cy, k - 1) || OnPlane(p, ll, d, cx, cy, k - 1)
  {
    if OnGrid(p, ll, d, cx, cy, k) {
      var i, j, kk :| 0 <= i < cx && 0 <= j < cy && 0 <= kk < k && p == GridPoint(ll, d, i, j, kk);
      if kk < k - 1 {
        assert OnGrid(p, ll, d, cx, cy, k - 1);
      }
    }
    if OnPlane(p, ll, d, cx, cy, k - 1) {
      var i, j :| 0 <= i < cx && 0 <= j < cy && p == GridPoint(ll, d, i, j, k - 1);
      assert OnGrid(p, ll, d, cx, cy, k);
    }
  }

  /** The block scan visits exactly the lattice points of its first `k` planes. */
  lemma {:induction false} GridBlockMembers(ll: IVec3, d: real, cx: nat, cy: nat, k: nat, p: Float4)
    ensures p in GridBlock(ll, d, cx, cy, k) <==> OnGrid(p, ll, d, cx, cy, k)
  {
    if k > 0 {
      GridBlockMembers(ll, d, cx, cy, k - 1, p);
      GridPlaneMembers(ll, d, cx, cy, k - 1, p);
      OnGridStep(p, ll, d, cx, cy, k);
      var before, plane := GridBlock(ll, d, cx, cy, k - 1), GridPlane(ll, d, cx, cy, k - 1);
      assert GridBlock(ll, d, cx, cy, k) == before + plane;
      assert p in before + plane <==> p in before || p in plane;
    }
  }

  lemma {:induction false} GridPlaneLength(ll: IVec3, d: real, cx: nat, j: nat, k: nat)
    ensures |GridPlane(ll, d, cx, j, k)| == j * cx
  {
    if j > 0 {
      GridPlaneLength(ll, d, cx, j - 1, k);
      MulStep(j, cx);
    }
  }

  lemma {:induction false} GridBlockLength(ll: IVec3, d: real, cx: nat, cy: nat, k: nat)
    ensures |GridBlock(ll, d, cx, cy, k)| == k * (cy * cx)
  {
    if k > 0 {
      var m := cy * cx;
      GridBlockLength(ll, d, cx, cy, k - 1);
      GridPlaneLength(ll, d, cx, cy, k - 1);
      assert |GridBlock(ll, d, cx, cy, k)| == (k - 1) * m + m;
      MulStep(k, m);
    }
  }

  lemma MulStep(k: nat, m: nat)
    requires k > 0
    ensures (k - 1) * m + m == k * m
  {
  }

  /** A block scan has one position per lattice point: `cx * cy * cz` of them. */
  lemma GridBlockSize(ll: IVec3, d: real, cx: nat, cy: nat, cz: nat)
    ensures |GridBlock(ll, d, cx, cy, cz)| == cx * cy * cz
  {
    GridBlockLength(ll, d, cx, cy, cz);
    assert cz * (cy * cx) == cx * cy * cz;
  }

  /** The positions scanned before cell (x, y, z), in z-major order. */
  function GridBefore(ll: IVec3, d: real, cx: nat, cy: nat, z: nat, y: nat, x: nat): seq<Float4>
    requires x <= cx
  {
    GridBlock(ll, d, cx, cy, z) + GridPlane(ll, d, cx, y, z) + GridRow(ll, d, cx, y, z)[..x]
  }

  /** Scanning cell (x, y, z) appends its point. */
  lemma GridBeforeSnoc(ll: IVec3, d: real, cx: nat, cy: nat, z: nat, y: nat, x: nat)
    requires x < cx
    ensures GridBefore(ll, d, cx, cy, z, y, x + 1) == GridBefore(ll, d, cx, cy, z, y, x) + [GridPoint(ll, d, x, y, z)]
  {
    var row := GridRow(ll, d, cx, y, z);
    assert row[..x + 1] == row[..x] + [row[x]];
  }

  /** A completed row is the start of the next one. */
  lemma GridBeforeNextRow(ll: IVec3, d: real, cx: nat, cy: nat, z: nat, y: nat)
    ensures GridBefore(ll, d, cx, cy, z, y, cx) == GridBefore(ll, d, cx, cy, z, y + 1, 0)
  {
    var row := GridRow(ll, d, cx, y, z);
    assert row[..cx] == row;
  }

  /** A completed plane is the start of the next one. */
  lemma GridBeforeNextPlane(ll: IVec3, d: real, cx: nat, cy: nat, z: nat)
    ensures GridBefore(ll, d, cx, cy, z, cy, 0) == GridBefore(ll, d, cx, cy, z + 1, 0, 0)
  {
    assert GridRow(ll, d, cx, cy, z)[..0] == [];
    assert GridPlane(ll, d, cx, 0, z + 1) == [];
  }

  /**
   * The lattice fill of `addFluid` and `addParticleGrid`: the block's
   * points in z-major order, `cx * cy * cz` of them, listing exactly the
   * lattice points of the block.
   */
  method GridPositions(ll: IVec3, d: real, cx: nat, cy: nat, cz: nat) returns (pos: seq<Float4>)
    ensures pos == GridBlock(ll, d, cx, cy, cz)
    ensures |pos| == cx * cy * cz
    ensures forall p :: p in pos <==> OnGrid(p, ll, d, cx, cy, cz)
  {
    pos := [];
    for z := 0 to cz
      invariant pos == GridBefore(ll, d, cx, cy, z, 0, 0)
    {
      for y := 0 to cy
        invariant pos == GridBefore(ll, d, cx, cy, z, y, 0)
      {
        for x := 0 to cx
          invariant pos == GridBefore(ll, d, cx, cy, z, y, x)
        {
          GridBeforeSnoc(ll, d, cx, cy, z, y, x);
          pos := pos + [GridPoint(ll, d, x, y, z)];
        }
        GridBeforeNextRow(ll, d, cx, cy, z, y);
      }
      GridBeforeNextPlane(ll, d, cx, cy, z);
    }
    assert pos == GridBlock(ll, d, cx, cy, cz) + [] + [];
    GridBlockSize(ll, d, cx, cy, cz);
    forall p ensures p in pos <==> OnGrid(p, ll, d, cx, cy, cz) {
      GridBlockMembers(ll, d, cx, cy, cz, p);
    }
  }

  /** `length(p - center) < radius`, squared so that no square root is needed. */
  predicate InsideSphere(p: Vec3, center: Vec3, radius: real)
  {
    radius >= 0.0 && SqLength(Sub(p, center)) < radius * radius
  }

  /** The points of `s` strictly inside the sphere, in order. */
  function KeepInside(s: seq<Float4>, center: Vec3, radius: real): seq<Float4>
  {
    if |s| == 0 then []
    else KeepInside(s[..|s| - 1], center, radius) +
         (if InsideSphere(Xyz(s[|s| - 1]), center, radius) then [s[|s| - 1]] else [])
  }

  lemma KeepInsideSnoc(s: seq<Float4>, p: Float4, center: Vec3, radius: real)
    ensures KeepInside(s + [p], center, radius) ==
            KeepInside(s, center, radius) + (if InsideSphere(Xyz(p), center, radius) then [p] else [])
  {
    assert (s + [p])[..|s|] == s;
  }

  lemma {:induction false} KeepInsideMembers(s: seq<Float4>, center: Vec3, radius: real, p: Float4)
    ensures p in KeepInside(s, center, radius) <==> p in s && InsideSphere(Xyz(p), center, radius)
  {
    if |s| > 0 {
      var init := s[..|s| - 1];
      KeepInsideMembers(init, center, radius, p);
      assert s == init + [s[|s| - 1]];
    }
  }

  /** Every kept particle `n` is pinned to its own initial position, as particle `startI + n`. */
  predicate SelfAnchored(anchors: seq<PointConstraint>, pos: seq<Float4>, startI: int)
  {
    |anchors| == |pos| &&
    forall n | 0 <= n < |pos| :: anchors[n] == PointConstraint(startI + n, Xyz(pos[n]))
  }

  /** One cell of the sphere scan: a point strictly inside is kept and pinned where it stands. */
  method KeepIfInside(startI: int, pos: seq<Float4>, anchors: seq<PointConstraint>, p: Float4,
                      center: Vec3, radius: real)
    returns (pos': seq<Float4>, anchors': seq<PointConstraint>)
    requires SelfAnchored(anchors, pos, startI)
    ensures pos' == pos + (if InsideSphere(Xyz(p), center, radius) then [p] else [])
    ensures SelfAnchored(anchors', pos', startI)
  {
    pos', anchors' := pos, anchors;
    if InsideSphere(Xyz(p), center, radius) {
      var index := |pos|;
      pos' := pos + [p];
      anchors' := anchors + [PointConstraint(startI + index, Xyz(p))];
    }
  }

  /** One row of the sphere scan. */
  method KeepRowInside(startI: int, ll: IVec3, spacing: real, cx: nat, cy: nat, z: nat, y: nat,
                       center: Vec3, radius: real, pos: seq<Float4>, anchors: seq<PointConstraint>)
    returns (pos': seq<Float4>, anchors': seq<PointConstraint>)
    requires pos == KeepInside(GridBefore(ll, spacing, cx, cy, z, y, 0), center, radius)
    requires SelfAnchored(anchors, pos, startI)
    ensures pos' == KeepInside(GridBefore(ll, spacing, cx, cy, z, y + 1, 0), center, radius)
    ensures SelfAnchored(anchors', pos', startI)
  {
    pos', anchors' := pos, anchors;
    for x := 0 to cx
      invariant pos' == KeepInside(GridBefore(ll, spacing, cx, cy, z, y, x), center, radius)
      invariant SelfAnchored(anchors', pos', startI)
    {
      var p := GridPoint(ll, spacing, x, y, z);
      GridBeforeSnoc(ll, spacing, cx, cy, z, y, x);
      KeepInsideSnoc(GridBefore(ll, spacing, cx, cy, z, y, x), p, center, radius);
      pos', anchors' := KeepIfInside(startI, pos', anchors', p, center, radius);
    }
    GridBeforeNextRow(ll, spacing, cx, cy, z, y);
  }

  /**
   * `addStaticSphere`'s lattice filter: a block point is kept exactly when
   * it lies strictly inside the sphere, in scan order, and each kept
   * particle is pinned by a point constraint to its own initial position.
   */
  method SpherePositions(startI: int, ll: IVec3, spacing: real, cx: nat, cy: nat, cz: nat,
                         center: Vec3, radius: real)
    returns (pos: seq<Float4>, anchors: seq<PointConstraint>)
    ensures pos == KeepInside(GridBlock(ll, spacing, cx, cy, cz), center, radius)
    ensures forall p :: p in pos <==> OnGrid(p, ll, spacing, cx, cy, cz) && InsideSphere(Xyz(p), center, radius)
    ensures SelfAnchored(anchors, pos, startI)
  {
    pos, anchors := [], [];
    for z := 0 to cz
      invariant pos == KeepInside(GridBefore(ll, spacing, cx, cy, z, 0, 0), center, radius)
      invariant SelfAnchored(anchors, pos, startI)
    {
      for y := 0 to cy
        invariant pos == KeepInside(GridBefore(ll, spacing, cx, cy, z, y, 0), center, radius)
        invariant SelfAnchored(anchors, pos, startI)
      {
        pos, anchors := KeepRowInside(startI, ll, spacing, cx, cy, z, y, center, radius, pos, anchors);
      }
      GridBeforeNextPlane(ll, spacing, cx, cy, z);
    }
    assert GridBefore(ll, spacing, cx, cy, cz, 0, 0) == GridBlock(ll, spacing, cx, cy, cz);
    forall p ensures p in pos <==> OnGrid(p, ll, spacing, cx, cy, cz) && InsideSphere(Xyz(p), center, radius) {
      KeepInsideMembers(GridBlock(ll, spacing, cx, cy, cz), center, radius, p);
      GridBlockMembers(ll, spacing, cx, cy, cz, p);
    }
  }
}
