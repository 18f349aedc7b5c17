/** Three-component vectors over the reals, standing in for the renderer's
    `vec3`/`point3`/`color` (double precision is idealised as `real`).
    The square root the renderer takes from the C library is not defined
    here: every operation that needs one receives it as a parameter obeying
    the square-root law `IsSqrt`. */
module Vec {

  datatype Vec3 = Vec3(x: real, y: real, z: real)

  const Zero: Vec3 := Vec3(0.0, 0.0, 0.0)

  function Add(a: Vec3, b: Vec3): Vec3 {
    Vec3(a.x + b.x, a.y + b.y, a.z + b.z)
  }

  function Sub(a: Vec3, b: Vec3): Vec3 {
    Vec3(a.x - b.x, a.y - b.y, a.z - b.z)
  }

  function Scale(k: real, a: Vec3): Vec3 {
    Vec3(k * a.x, k * a.y, k * a.z)
  }

  function Dot(a: Vec3, b: Vec3): real {
    a.x * b.x + a.y * b.y + a.z * b.z
  }

  function Cross(a: Vec3, b: Vec3): Vec3 {
    Vec3(a.y * b.z - a.z * b.y,
         a.z * b.x - a.x * b.z,
         a.x * b.y - a.y * b.x)
  }

  function Abs(x: real): real {
    if x < 0.0 then -x else x
  }

  function Min(a: real, b: real): real {
    if a <= b then a else b
  }

  function Max(a: real, b: real): real {
    if a >= b then a else b
  }

  function Sq(x: real): real {
    x * x
  }

  /** The law every square root the model is given must obey. */
  ghost predicate IsSqrt(sqrt: real -> real) {
    forall x: real :: 0.0 <= x ==> 0.0 <= sqrt(x) && Sq(sqrt(x)) == x
  }

  lemma NonNegativeProduct(p: real, q: real)
    requires p >= 0.0 && q >= 0.0
    ensures p * q >= 0.0
  {
  }

  lemma NegativeProduct(k: real, y: real)
    requires k > 0.0 && y < 0.0
    ensures k * y < 0.0
  {
    assert k * (-y) > 0.0;
  }

  lemma MulMonotone(a: int, b: int, c: int)
    requires 0 <= c
    ensures 0 <= a <= b ==> a * c <= b * c
  {
  }

  lemma SqNonNegative(p: real)
    ensures Sq(p) >= 0.0
  {
    if p < 0.0 {
      assert Sq(p) == Sq(-p);
      NonNegativeProduct(-p, -p);
    } else {
      NonNegativeProduct(p, p);
    }
  }

  lemma SqStrictlyMonotone(p: real, q: real)
    requires 0.0 <= q < p
    ensures Sq(q) < Sq(p)
  {
    assert Sq(q) <= q * p;
    assert q * p < Sq(p);
  }

  /** The square of a non-zero real is positive. */
  lemma SqPositive(p: real)
    requires p != 0.0
    ensures Sq(p) > 0.0
  {
    if p < 0.0 {
      assert Sq(p) == Sq(-p);
      SqStrictlyMonotone(-p, 0.0);
    } else {
      SqStrictlyMonotone(p, 0.0);
    }
  }

  /** A squared length is never negative. */
  lemma DotSelfNonNegative(a: Vec3)
    ensures Dot(a, a) >= 0.0
  {
    assert Dot(a, a) == Sq(a.x) + Sq(a.y) + Sq(a.z);
    SqNonNegative(a.x);
    SqNonNegative(a.y);
    SqNonNegative(a.z);
  }

  /** A vector with a non-zero second component has a positive squared
      length. */
  lemma DotSelfPositive(a: Vec3)
    requires a.y != 0.0
    ensures Dot(a, a) > 0.0
  {
    assert Dot(a, a) == Sq(a.x) + Sq(a.y) + Sq(a.z);
    SqPositive(a.y);
    SqNonNegative(a.x);
    SqNonNegative(a.z);
  }

  /** The reciprocal length `1/|a|` that `unit_vector` scales by; defined
      whenever the squared length is non-zero. */
  function InverseLength(a: Vec3, sqrt: real -> real): (k: real)
    requires IsSqrt(sqrt)
    requires Dot(a, a) != 0.0
    ensures k > 0.0
    ensures Sq(k) * Dot(a, a) == 1.0
  {
    DotSelfNonNegative(a);
    var len := sqrt(Dot(a, a));
    assert Sq(len) == Dot(a, a);
    assert len != 0.0;
    assert Sq(1.0 / len) * Sq(len) == 1.0;
    1.0 / len
  }

  /** `unit_vector(a) = a / a.length()`: a positive multiple of `a` whose
      squared length is one. */
  function Unit(a: Vec3, sqrt: real -> real): (u: Vec3)
    requires IsSqrt(sqrt)
    requires Dot(a, a) != 0.0
    ensures Dot(u, u) == 1.0
    ensures u == Scale(InverseLength(a, sqrt), a)
  {
    var k := InverseLength(a, sqrt);
    assert Dot(Scale(k, a), Scale(k, a)) == Sq(k) * Dot(a, a);
    Scale(k, a)
  }

  // Algebraic facts used by the intersection proofs.

  lemma DotScaleLeft(k: real, a: Vec3, b: Vec3)
    ensures Dot(Scale(k, a), b) == k * Dot(a, b)
  {
  }

  lemma DotScaleRight(k: real, a: Vec3, b: Vec3)
    ensures Dot(a, Scale(k, b)) == k * Dot(a, b)
  {
  }

  lemma DotSubRight(a: Vec3, b: Vec3, c: Vec3)
    ensures Dot(a, Sub(b, c)) == Dot(a, b) - Dot(a, c)
  {
  }

  lemma DotAddRight(a: Vec3, b: Vec3, c: Vec3)
    ensures Dot(a, Add(b, c)) == Dot(a, b) + Dot(a, c)
  {
  }

  /** A vector orthogonal to `d1` and `d2` is orthogonal to every combination of them. */
  lemma OrthogonalToSpan(n: Vec3, d1: Vec3, d2: Vec3, s: real, t: real, o: Vec3)
    requires Dot(n, d1) == 0.0 && Dot(n, d2) == 0.0
    requires o == Add(Scale(s, d1), Scale(t, d2))
    ensures Dot(n, o) == 0.0
  {
    DotAddRight(n, Scale(s, d1), Scale(t, d2));
    DotScaleRight(s, n, d1);
    DotScaleRight(t, n, d2);
  }

  /** Points whose difference is orthogonal to `n` lie at the same level along every multiple of `n`. */
  lemma SameLevel(k: real, n: Vec3, p: Vec3, o: Vec3)
    requires Dot(n, Sub(p, o)) == 0.0
    ensures Dot(Scale(k, n), p) == Dot(Scale(k, n), o)
  {
    DotSubRight(n, p, o);
    DotScaleLeft(k, n, p);
    DotScaleLeft(k, n, o);
  }

  /** `a*p + b*q + c*r - q == a*(p - q) + c*(r - q)` when the weights sum to one. */
  lemma AffineOffset(a: real, b: real, c: real, p: real, q: real, r: real)
    requires a + b + c == 1.0
    ensures a * p + b * q + c * r - q == a * (p - q) + c * (r - q)
  {
    assert b == 1.0 - a - c;
  }

  lemma DotAdd(a: Vec3, b: Vec3, c: Vec3)
    ensures Dot(Add(a, b), c) == Dot(a, c) + Dot(b, c)
  {
  }

  /** A cross product is orthogonal to both of its factors. */
  lemma CrossOrthogonal(a: Vec3, b: Vec3)
    ensures Dot(Cross(a, b), a) == 0.0
    ensures Dot(Cross(a, b), b) == 0.0
  {
  }

  // Each cross-product identity below is proved one component at a time:
  // every component is a small polynomial identity on its own.

  function SumOfEdgeCrosses(a: Vec3, b: Vec3, c: Vec3, p: Vec3): Vec3 {
    Add(Add(Cross(Sub(c, b), Sub(p, b)), Cross(Sub(a, c), Sub(p, c))), Cross(Sub(b, a), Sub(p, a)))
  }

  lemma CrossSumX(a: Vec3, b: Vec3, c: Vec3, p: Vec3)
    ensures SumOfEdgeCrosses(a, b, c, p).x == Cross(Sub(b, a), Sub(c, a)).x
  {
  }

  lemma CrossSumY(a: Vec3, b: Vec3, c: Vec3, p: Vec3)
    ensures SumOfEdgeCrosses(a, b, c, p).y == Cross(Sub(b, a), Sub(c, a)).y
  {
  }

  lemma CrossSumZ(a: Vec3, b: Vec3, c: Vec3, p: Vec3)
    ensures SumOfEdgeCrosses(a, b, c, p).z == Cross(Sub(b, a), Sub(c, a)).z
  {
  }

  /** The three edge/point cross products of a triangle sum to its area
      vector, whatever the point. */
  lemma CrossSumIdentity(a: Vec3, b: Vec3, c: Vec3, p: Vec3)
    ensures Add(Add(Cross(Sub(c, b), Sub(p, b)), Cross(Sub(a, c), Sub(p, c))), Cross(Sub(b, a), Sub(p, a)))
            == Cross(Sub(b, a), Sub(c, a))
  {
    CrossSumX(a, b, c, p);
    CrossSumY(a, b, c, p);
    CrossSumZ(a, b, c, p);
  }

  lemma CrossRotationX(a: Vec3, b: Vec3, c: Vec3)
    ensures Cross(Sub(c, b), Sub(a, b)).x == Cross(Sub(b, a), Sub(c, a)).x
    ensures Cross(Sub(a, c), Sub(b, c)).x == Cross(Sub(b, a), Sub(c, a)).x
  {
  }

  lemma CrossRotationY(a: Vec3, b: Vec3, c: Vec3)
    ensures Cross(Sub(c, b), Sub(a, b)).y == Cross(Sub(b, a), Sub(c, a)).y
    ensures Cross(Sub(a, c), Sub(b, c)).y == Cross(Sub(b, a), Sub(c, a)).y
  {
  }

  lemma CrossRotationZ(a: Vec3, b: Vec3, c: Vec3)
    ensures Cross(Sub(c, b), Sub(a, b)).z == Cross(Sub(b, a), Sub(c, a)).z
    ensures Cross(Sub(a, c), Sub(b, c)).z == Cross(Sub(b, a), Sub(c, a)).z
  {
  }

  /** The area vector is the same for every cyclic rotation of the corners. */
  lemma CrossRotation(a: Vec3, b: Vec3, c: Vec3)
    ensures Cross(Sub(c, b), Sub(a, b)) == Cross(Sub(b, a), Sub(c, a))
    ensures Cross(Sub(a, c), Sub(b, c)) == Cross(Sub(b, a), Sub(c, a))
  {
    CrossRotationX(a, b, c);
    CrossRotationY(a, b, c);
    CrossRotationZ(a, b, c);
  }

  /** `a*(s*c + t*b) - b*(s*d + t*a) == s*(a*c - b*d)`. Every compound
      factor is a parameter of its own, so that at a call site the solver
      meets only products of two atoms. */
  lemma CombinationComponent(a: real, b: real, c: real, d: real, s: real, t: real, u: real, v: real, w: real)
    requires u == s * c + t * b && v == s * d + t * a && w == a * c - b * d
    ensures a * u - b * v == s * w
  {
  }

  lemma CrossCombinationX(e: Vec3, f: Vec3, s: real, t: real)
    ensures Cross(e, Add(Scale(s, f), Scale(t, e))).x == Scale(s, Cross(e, f)).x
  {
    var g := Add(Scale(s, f), Scale(t, e));
    CombinationComponent(e.y, e.z, f.z, f.y, s, t, g.z, g.y, Cross(e, f).x);
  }

  lemma CrossCombinationY(e: Vec3, f: Vec3, s: real, t: real)
    ensures Cross(e, Add(Scale(s, f), Scale(t, e))).y == Scale(s, Cross(e, f)).y
  {
    var g := Add(Scale(s, f), Scale(t, e));
    CombinationComponent(e.z, e.x, f.x, f.z, s, t, g.x, g.z, Cross(e, f).y);
  }

  lemma CrossCombinationZ(e: Vec3, f: Vec3, s: real, t: real)
    ensures Cross(e, Add(Scale(s, f), Scale(t, e))).z == Scale(s, Cross(e, f)).z
  {
    var g := Add(Scale(s, f), Scale(t, e));
    CombinationComponent(e.x, e.y, f.y, f.x, s, t, g.y, g.x, Cross(e, f).z);
  }

  /** `e x (s*f + t*e) == s * (e x f)`. */
  lemma CrossCombination(e: Vec3, f: Vec3, s: real, t: real)
    ensures Cross(e, Add(Scale(s, f), Scale(t, e))) == Scale(s, Cross(e, f))
  {
    CrossCombinationX(e, f, s, t);
    CrossCombinationY(e, f, s, t);
    CrossCombinationZ(e, f, s, t);
  }
}
