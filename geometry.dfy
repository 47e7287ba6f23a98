/**
 * Vector value types and the exact-arithmetic rounding helpers shared by the
 * particle store, the shape builders and the SDF lattice scans.
 *
 * Floating-point coordinates are modelled as `real`; lattice loops of the
 * form `for (x = lo; x < hi; x += W)` are modelled by integer indices `i`
 * with coordinate `i * W`.
 */
module Geometry {

  /** A 3-component vector (`float3` / `glm::vec3`). */
  datatype Vec3 = Vec3(x: real, y: real, z: real)

  /** A 4-component vector (`float4`): a position with `w`, or a packed queue entry. */
  datatype Float4 = Float4(x: real, y: real, z: real, w: real)

  /** An integer 3-vector (`int3`), used for world bounds and box corners. */
  datatype IVec3 = IVec3(x: int, y: int, z: int)

  const Origin := Vec3(0.0, 0.0, 0.0)

  function Add(a: Vec3, b: Vec3): Vec3 { Vec3(a.x + b.x, a.y + b.y, a.z + b.z) }

  function Sub(a: Vec3, b: Vec3): Vec3 { Vec3(a.x - b.x, a.y - b.y, a.z - b.z) }

  function Scale(a: Vec3, k: real): Vec3 { Vec3(a.x * k, a.y * k, a.z * k) }

  /** `make_float3(int3)` */
  function ToVec3(v: IVec3): Vec3 { Vec3(v.x as real, v.y as real, v.z as real) }

  /** `make_float4(float3, w)` */
  function WithW(v: Vec3, w: real): Float4 { Float4(v.x, v.y, v.z, w) }

  /** `make_float3(float4)`: drops the fourth component. */
  function Xyz(p: Float4): Vec3 { Vec3(p.x, p.y, p.z) }

  function Min(a: real, b: real): real { if a <= b then a else b }

  function Max(a: real, b: real): real { if a >= b then a else b }

  function Abs(a: real): real { if a >= 0.0 then a else -a }

  function SqLength(v: Vec3): real { v.x * v.x + v.y * v.y + v.z * v.z }

  /** `ceilf`: the least integer not below `a`. */
  function Ceil(a: real): (c: int)
    ensures a <= c as real < a + 1.0
  {
    -((-a).Floor)
  }

  /** A float-to-int conversion, which truncates toward zero. */
  function Trunc(a: real): (t: int)
    ensures a >= 0.0 ==> 0 <= t && t as real <= a < t as real + 1.0
    ensures a < 0.0 ==> t <= 0 && a <= t as real < a + 1.0
  {
    if a >= 0.0 then a.Floor else -((-a).Floor)
  }

  /**
   * The lattice loop `for (x = lo; x < m; x += w)` started on a multiple of
   * `w` visits exactly the indices below `Ceil(m / w)`.
   */
  lemma LatticeIndexBound(i: int, m: real, w: real)
    requires w > 0.0
    ensures i < Ceil(m / w) <==> (i as real) * w < m
  {
    var q := m / w;
    assert q * w == m;
    if i < Ceil(q) {
      // the integer i lies strictly below q
      assert (i as real) < q;
      assert (i as real) * w < q * w;
    } else {
      assert q <= (i as real);
      assert q * w <= (i as real) * w;
    }
  }

  /** `ceilf(m / w) * w` is the first multiple of `w` that is at least `m`. */
  lemma AlignUp(m: real, w: real)
    requires w > 0.0
    ensures m <= (Ceil(m / w) as real) * w < m + w
  {
    var q := m / w;
    var c := Ceil(q) as real;
    var d := c - q;
    assert 0.0 <= d < 1.0;
    assert c * w == q * w + d * w;
    assert q * w == m;
    assert 0.0 <= d * w < w;
    assert c * w == m + d * w;
    assert c * w < m + w;
  }

  /** Re-aligning an already aligned coordinate yields the same lattice index. */
  lemma AlignedIndexStable(k: int, w: real)
    requires w > 0.0
    ensures Ceil((k as real) * w / w) == k
    ensures ((k as real) * w / w).Floor == k
  {
    assert (k as real) * w / w == k as real;
  }
}
