/**
 * Signed distance fields: a field is a function R^3 -> R plus an offset.
 * `evaluate` applies the function to `p - offset`; the three combinators
 * build a fresh field from the operands' raw functions.
 *
 * The closures that `intersect`, `unite` and `difference` build are
 * represented by a closed tree, evaluated by recursive descent.
 */
module Sdf {
  import opened Geometry

  /**
   * A field value. `Leaf` is a field built by either constructor (function
   * alone, or function plus offset). The other three are the fields the
   * combinators return: their captured closure is `min`, `max` or
   * `max(f, -g)` of the operands' raw functions, and their offset is zero.
   */
  datatype Field =
    | Leaf(fn: Vec3 -> real, offset: Vec3)
    | MinOf(a: Field, b: Field)
    | MaxOf(a: Field, b: Field)
    | MaxNegOf(a: Field, b: Field)
  {
    /** The private `function` member, applied to `p`. */
    function Raw(p: Vec3): real
    {
      match this
      case Leaf(f, _) => f(p)
      case MinOf(a, b) => Min(a.Raw(p), b.Raw(p))
      case MaxOf(a, b) => Max(a.Raw(p), b.Raw(p))
      case MaxNegOf(a, b) => Max(a.Raw(p), -b.Raw(p))
    }

    /** The private `offset` member; combinator results are built with a zero offset. */
    function Offset(): Vec3
    {
      if Leaf? then offset else Origin
    }

    /** `evaluate(p) == function(p - offset)` */
    function Evaluate(p: Vec3): real
    {
      Raw(Sub(p, Offset()))
    }

    /**
     * `gradient`: per axis, the difference of two evaluations half a step
     * either side of `p`, with step `h = p * sqrt(0.001)`; not divided by `h`.
     */
    function Gradient(p: Vec3): (g: Vec3)
      ensures p.x == 0.0 ==> g.x == 0.0
      ensures p.y == 0.0 ==> g.y == 0.0
      ensures p.z == 0.0 ==> g.z == 0.0
    {
      var h := Scale(p, StepScale);
      Vec3(
        Evaluate(Vec3(p.x + 0.5 * h.x, p.y, p.z)) - Evaluate(Vec3(p.x - 0.5 * h.x, p.y, p.z)),
        Evaluate(Vec3(p.x, p.y + 0.5 * h.y, p.z)) - Evaluate(Vec3(p.x, p.y - 0.5 * h.y, p.z)),
        Evaluate(Vec3(p.x, p.y, p.z + 0.5 * h.z)) - Evaluate(Vec3(p.x, p.y, p.z - 0.5 * h.z)))
    }

    /** `intersect`: a fresh field whose function is the minimum of both raw functions. */
    function Intersect(other: Field): (r: Field)
      ensures r.Offset() == Origin
      ensures forall p :: r.Evaluate(p) == Min(this.Raw(p), other.Raw(p))
    {
      MinOf(this, other)
    }

    /** `unite`: a fresh field whose function is the maximum of both raw functions. */
    function Unite(other: Field): (r: Field)
      ensures r.Offset() == Origin
      ensures forall p :: r.Evaluate(p) == Max(this.Raw(p), other.Raw(p))
    {
      MaxOf(this, other)
    }

    /** `difference`: a fresh field whose function is `max(f, -g)` of the raw functions. */
    function Difference(other: Field): (r: Field)
      ensures r.Offset() == Origin
      ensures forall p :: r.Evaluate(p) == Max(this.Raw(p), -other.Raw(p))
    {
      MaxNegOf(this, other)
    }
  }

  /** `sqrt(EPSILON)` with `EPSILON = 0.001`, as a decimal literal. */
  const StepScale: real := 0.0316227766

  /** The one-argument constructor: the offset is the zero vector. */
  function FromFunction(f: Vec3 -> real): (s: Field)
    ensures forall p :: s.Evaluate(p) == f(p)
  {
    Leaf(f, Origin)
  }

  /** The two-argument constructor. */
  function WithOffset(f: Vec3 -> real, offset: Vec3): (s: Field)
    ensures forall p :: s.Evaluate(p) == f(Sub(p, offset))
  {
    Leaf(f, offset)
  }

  /**
   * An independent reading of a field tree in which every operand is
   * evaluated with its own offset, as `evaluate` would.
   */
  function Semantic(s: Field, p: Vec3): real
  {
    match s
    case Leaf(f, off) => f(Sub(p, off))
    case MinOf(a, b) => Min(Semantic(a, p), Semantic(b, p))
    case MaxOf(a, b) => Max(Semantic(a, p), Semantic(b, p))
    case MaxNegOf(a, b) => Max(Semantic(a, p), -Semantic(b, p))
  }

  /** Every field constructed in the tree has a zero offset. */
  predicate Centred(s: Field)
  {
    match s
    case Leaf(_, off) => off == Origin
    case MinOf(a, b) => Centred(a) && Centred(b)
    case MaxOf(a, b) => Centred(a) && Centred(b)
    case MaxNegOf(a, b) => Centred(a) && Centred(b)
  }

  /** For centred operands the raw function already is the field's meaning. */
  lemma {:induction false} CentredRawIsSemantic(s: Field, p: Vec3)
    requires Centred(s)
    ensures s.Raw(p) == Semantic(s, p)
  {
    match s
    case Leaf(f, off) =>
      assert Sub(p, off) == p;
    case MinOf(a, b) =>
      CentredRawIsSemantic(a, p);
      CentredRawIsSemantic(b, p);
    case MaxOf(a, b) =>
      CentredRawIsSemantic(a, p);
      CentredRawIsSemantic(b, p);
    case MaxNegOf(a, b) =>
      CentredRawIsSemantic(a, p);
      CentredRawIsSemantic(b, p);
  }

  /**
   * With centred operands the combinators obey the algebra the design
   * promises: `unite(A,B).evaluate(p) == max(A.evaluate(p), B.evaluate(p))`,
   * and likewise for intersect (min) and difference (max(f, -g)), however
   * deeply the operands are nested.
   */
  lemma {:induction false} CombinatorAlgebra(a: Field, b: Field, p: Vec3)
    requires Centred(a) && Centred(b)
    ensures a.Intersect(b).Evaluate(p) == Min(a.Evaluate(p), b.Evaluate(p))
    ensures a.Unite(b).Evaluate(p) == Max(a.Evaluate(p), b.Evaluate(p))
    ensures a.Difference(b).Evaluate(p) == Max(a.Evaluate(p), -b.Evaluate(p))
  {
    assert a.Offset() == Origin && b.Offset() == Origin by {
      match a { case Leaf(_, _) => case MinOf(_, _) => case MaxOf(_, _) => case MaxNegOf(_, _) => }
      match b { case Leaf(_, _) => case MinOf(_, _) => case MaxOf(_, _) => case MaxNegOf(_, _) => }
    }
    assert Sub(p, Origin) == p;
  }

  /** A centred tree evaluates to its semantic reading at every point. */
  lemma {:induction false} CentredEvaluateIsSemantic(s: Field, p: Vec3)
    requires Centred(s)
    ensures s.Evaluate(p) == Semantic(s, p)
  {
    assert s.Offset() == Origin by {
      match s { case Leaf(_, _) => case MinOf(_, _) => case MaxOf(_, _) => case MaxNegOf(_, _) => }
    }
    assert Sub(p, Origin) == p;
    CentredRawIsSemantic(s, p);
  }

  /**
   * The combinators read the operands' raw functions, so an operand's
   * offset is lost: the intersection of the field `x - 1` (the function
   * `x` shifted by one) with itself evaluates to 0 at the origin, where
   * the operand itself evaluates to -1.
   */
  lemma CombinatorDropsOffset()
    ensures var a := WithOffset((q: Vec3) => q.x, Vec3(1.0, 0.0, 0.0));
            a.Evaluate(Origin) == -1.0 && a.Intersect(a).Evaluate(Origin) == 0.0
  {
    var f := (q: Vec3) => q.x;
    var a := WithOffset(f, Vec3(1.0, 0.0, 0.0));
    assert a == Leaf(f, Vec3(1.0, 0.0, 0.0));
    assert Sub(Origin, Vec3(1.0, 0.0, 0.0)) == Vec3(-1.0, 0.0, 0.0);
    assert a.Evaluate(Origin) == f(Vec3(-1.0, 0.0, 0.0)) == -1.0;
    assert a.Raw(Origin) == f(Origin) == 0.0;
    assert a.Intersect(a).Evaluate(Origin) == Min(a.Raw(Origin), a.Raw(Origin));
  }

  /** Nothing an operand's offset says reaches a combinator's result. */
  lemma CombinatorIgnoresOperandOffsets(f: Vec3 -> real, g: Vec3 -> real, o1: Vec3, o2: Vec3, o3: Vec3, o4: Vec3, p: Vec3)
    ensures Leaf(f, o1).Intersect(Leaf(g, o2)).Evaluate(p) == Leaf(f, o3).Intersect(Leaf(g, o4)).Evaluate(p)
    ensures Leaf(f, o1).Unite(Leaf(g, o2)).Evaluate(p) == Leaf(f, o3).Unite(Leaf(g, o4)).Evaluate(p)
    ensures Leaf(f, o1).Difference(Leaf(g, o2)).Evaluate(p) == Leaf(f, o3).Difference(Leaf(g, o4)).Evaluate(p)
  {
  }

  /**
   * With negative-inside fields, `intersect` (a minimum) is inside exactly
   * where either operand is inside: geometrically it is the union.
   */
  lemma IntersectInsideEither(a: Field, b: Field, p: Vec3)
    requires Centred(a) && Centred(b)
    ensures a.Intersect(b).Evaluate(p) < 0.0 <==> a.Evaluate(p) < 0.0 || b.Evaluate(p) < 0.0
  {
    CombinatorAlgebra(a, b, p);
  }

  /**
   * The gradient is a difference, not a difference quotient: for the plane
   * field `k * x` its x-component is `k * sqrt(0.001) * x`, which grows with
   * the distance of `p` from the origin.
   */
  lemma GradientOfPlane(k: real, p: Vec3)
    ensures FromFunction((q: Vec3) => k * q.x).Gradient(p).x == k * StepScale * p.x
  {
    var s := FromFunction((q: Vec3) => k * q.x);
    var h := StepScale * p.x;
    assert s.Evaluate(Vec3(p.x + 0.5 * h, p.y, p.z)) == k * (p.x + 0.5 * h);
    assert s.Evaluate(Vec3(p.x - 0.5 * h, p.y, p.z)) == k * (p.x - 0.5 * h);
    assert k * (p.x + 0.5 * h) - k * (p.x - 0.5 * h) == k * h;
  }
}
