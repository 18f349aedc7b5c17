/** The triangle primitive: three vertices, a material handle, a plane
    (unit normal and offset) and an axis-aligned bounding box, all fixed at
    construction; and the ray intersection test that reads them. */
module Triangles {
  import opened Vec
  import opened Rays
  import opened Intervals

  /** The material handle a triangle passes through to its hits: the
      diffuse albedo the terrain builds, or any other material by identity. */
  datatype Material = Lambertian(albedo: Vec3) | Other(id: nat)

  /** Axis-aligned box given by its minimum and maximum corners. */
  datatype Aabb = Aabb(lo: Vec3, hi: Vec3)

  predicate InBox(b: Aabb, p: Vec3) {
    && b.lo.x <= p.x <= b.hi.x
    && b.lo.y <= p.y <= b.hi.y
    && b.lo.z <= p.z <= b.hi.z
  }

  /** Box `outer` contains box `inner`. */
  predicate Encloses(outer: Aabb, inner: Aabb) {
    && outer.lo.x <= inner.lo.x && outer.lo.y <= inner.lo.y && outer.lo.z <= inner.lo.z
    && inner.hi.x <= outer.hi.x && inner.hi.y <= outer.hi.y && inner.hi.z <= outer.hi.z
  }

  function Min3(a: real, b: real, c: real): real {
    Min(Min(a, b), c)
  }

  function Max3(a: real, b: real, c: real): real {
    Max(Max(a, b), c)
  }

  /** `set_bounding_box`: the coordinate-wise minimum and maximum of the
      three vertices. The box holds every vertex and each of its corner
      coordinates is a coordinate of some vertex, so it is tight. */
  function BoundingBox(v1: Vec3, v2: Vec3, v3: Vec3): (b: Aabb)
    ensures InBox(b, v1) && InBox(b, v2) && InBox(b, v3)
    ensures b.lo.x in {v1.x, v2.x, v3.x} && b.hi.x in {v1.x, v2.x, v3.x}
    ensures b.lo.y in {v1.y, v2.y, v3.y} && b.hi.y in {v1.y, v2.y, v3.y}
    ensures b.lo.z in {v1.z, v2.z, v3.z} && b.hi.z in {v1.z, v2.z, v3.z}
  {
    Aabb(Vec3(Min3(v1.x, v2.x, v3.x), Min3(v1.y, v2.y, v3.y), Min3(v1.z, v2.z, v3.z)),
         Vec3(Max3(v1.x, v2.x, v3.x), Max3(v1.y, v2.y, v3.y), Max3(v1.z, v2.z, v3.z)))
  }

  /** The box is the smallest one holding the three vertices. */
  lemma BoundingBoxIsLeast(v1: Vec3, v2: Vec3, v3: Vec3, box: Aabb)
    requires InBox(box, v1) && InBox(box, v2) && InBox(box, v3)
    ensures Encloses(box, BoundingBox(v1, v2, v3))
  {
  }

  /** The box does not depend on the order the vertices are given in. */
  lemma BoundingBoxPermutation(v1: Vec3, v2: Vec3, v3: Vec3)
    ensures BoundingBox(v1, v2, v3) == BoundingBox(v2, v1, v3)
    ensures BoundingBox(v1, v2, v3) == BoundingBox(v1, v3, v2)
    ensures BoundingBox(v1, v2, v3) == BoundingBox(v3, v2, v1)
    ensures BoundingBox(v1, v2, v3) == BoundingBox(v2, v3, v1)
    ensures BoundingBox(v1, v2, v3) == BoundingBox(v3, v1, v2)
  {
    ExtremaSymmetric(v1.x, v2.x, v3.x);
    ExtremaSymmetric(v1.y, v2.y, v3.y);
    ExtremaSymmetric(v1.z, v2.z, v3.z);
  }

  lemma ExtremaSymmetric(a: real, b: real, c: real)
    ensures Min3(a, b, c) == Min3(b, a, c) == Min3(a, c, b) == Min3(c, b, a) == Min3(b, c, a) == Min3(c, a, b)
    ensures Max3(a, b, c) == Max3(b, a, c) == Max3(a, c, b) == Max3(c, b, a) == Max3(b, c, a) == Max3(c, a, b)
  {
  }

  /** The supporting plane: unit normal and offset `dot(normal, v1)`. A
      triangle of zero area has no normal (in the renderer's arithmetic it
      is NaN, and every comparison with it fails); the model says so with
      `Degenerate`. */
  datatype Plane = Plane(normal: Vec3, d: real) | Degenerate

  datatype Tri = Tri(v1: Vec3, v2: Vec3, v3: Vec3, mat: Material, plane: Plane, bbox: Aabb)

  /** `cross(v2 - v1, v3 - v1)`: twice the triangle's area, as a vector
      normal to it. */
  function AreaVector(v1: Vec3, v2: Vec3, v3: Vec3): Vec3 {
    Cross(Sub(v2, v1), Sub(v3, v1))
  }

  /** A triangle whose plane exists has a non-zero area vector. */
  ghost predicate WellFormed(t: Tri) {
    t.plane.Plane? ==> Dot(AreaVector(t.v1, t.v2, t.v3), AreaVector(t.v1, t.v2, t.v3)) != 0.0
  }

  /** The constructor: keeps the vertices and material, derives the plane
      from the area vector `n` (`normal = unit_vector(n)`,
      `D = dot(normal, v1)`) and caches the bounding box. */
  function MakeTri(v1: Vec3, v2: Vec3, v3: Vec3, mat: Material, sqrt: real -> real): (t: Tri)
    requires IsSqrt(sqrt)
    ensures t.v1 == v1 && t.v2 == v2 && t.v3 == v3 && t.mat == mat
    ensures WellFormed(t)
    ensures t.plane.Degenerate? <==> Dot(AreaVector(v1, v2, v3), AreaVector(v1, v2, v3)) == 0.0
    ensures t.plane.Plane? ==>
              && Dot(t.plane.normal, t.plane.normal) == 1.0
              && t.plane.normal == Scale(InverseLength(AreaVector(v1, v2, v3), sqrt), AreaVector(v1, v2, v3))
              && t.plane.d == Dot(t.plane.normal, v1)
    ensures t.bbox == BoundingBox(v1, v2, v3)
  {
    var n := AreaVector(v1, v2, v3);
    var plane := if Dot(n, n) == 0.0 then Degenerate
                 else var normal := Unit(n, sqrt); Plane(normal, Dot(normal, v1));
    Tri(v1, v2, v3, mat, plane, BoundingBox(v1, v2, v3))
  }

  /** `bounding_box()`: the box cached at construction (`MakeTri` caches
      `BoundingBox` of the vertices), which holds all three vertices and is
      enclosed by every box that does. */
  function BoundingBoxOf(t: Tri): (b: Aabb)
    requires t.bbox == BoundingBox(t.v1, t.v2, t.v3)
    ensures InBox(b, t.v1) && InBox(b, t.v2) && InBox(b, t.v3)
    ensures forall box :: InBox(box, t.v1) && InBox(box, t.v2) && InBox(box, t.v3) ==> Encloses(box, b)
  {
    t.bbox
  }

  /** What `hit` writes into the caller's record. The face-normal fields
      are not modelled. */
  datatype HitRecord = HitRecord(p: Vec3, t: real, mat: Material, u: real, v: real)

  /** `hit`'s boolean answer together with the record as it stands after
      the call. */
  datatype HitResult = HitResult(hit: bool, rec: HitRecord)

  /** Below this |dot(normal, direction)| a ray counts as parallel. */
  const ParallelEpsilon: real := 0.00000001

  /** `is_interior`: accepts exactly when all three barycentric ratios are
      non-negative, and then stores the second and third as the texture
      pair, dropping the first; on rejection the record is untouched. */
  function IsInterior(u: real, v: real, w: real, rec: HitRecord): (res: HitResult)
    ensures res.hit <==> 0.0 <= u && 0.0 <= v && 0.0 <= w
    ensures res.hit ==> res.rec == rec.(u := v, v := w)
    ensures !res.hit ==> res.rec == rec
  {
    if u < 0.0 || v < 0.0 || w < 0.0 then HitResult(false, rec)
    else HitResult(true, rec.(u := v, v := w))
  }

  /** Signed barycentric ratios of a point against the triangle. */
  datatype Bary = Bary(u: real, v: real, w: real)

  /** Each ratio is a sub-triangle's area vector projected on the full area
      vector over its squared length; for every point they sum to one. */
  function Barycentric(v1: Vec3, v2: Vec3, v3: Vec3, p: Vec3): (b: Bary)
    requires Dot(AreaVector(v1, v2, v3), AreaVector(v1, v2, v3)) != 0.0
    ensures b.u + b.v + b.w == 1.0
  {
    var a := AreaVector(v1, v2, v3);
    var na := Cross(Sub(v3, v2), Sub(p, v2));
    var nb := Cross(Sub(v1, v3), Sub(p, v3));
    var nc := Cross(Sub(v2, v1), Sub(p, v1));
    CrossSumIdentity(v1, v2, v3, p);
    DotAdd(Add(na, nb), nc, a);
    DotAdd(na, nb, a);
    var aa := Dot(a, a);
    assert Dot(na, a) / aa + Dot(nb, a) / aa + Dot(nc, a) / aa == (Dot(na, a) + Dot(nb, a) + Dot(nc, a)) / aa;
    Bary(Dot(na, a) / aa, Dot(nb, a) / aa, Dot(nc, a) / aa)
  }

  /** The ray parameter where the ray meets the plane `dot(n, x) == d`. */
  function PlaneParameter(n: Vec3, d: real, r: Ray): real
    requires Dot(n, r.dir) != 0.0
  {
    (d - Dot(n, r.orig)) / Dot(n, r.dir)
  }

  /** The point at the plane parameter lies on the plane. */
  lemma PlaneParameterOnPlane(n: Vec3, d: real, r: Ray)
    requires Dot(n, r.dir) != 0.0
    ensures Dot(n, At(r, PlaneParameter(n, d, r))) == d
  {
    var t := PlaneParameter(n, d, r);
    assert Dot(n, At(r, t)) == Dot(n, r.orig) + t * Dot(n, r.dir);
    assert t * Dot(n, r.dir) == d - Dot(n, r.orig);
  }

  /** `hit`: rejects degenerate triangles, rays parallel to the plane and
      plane parameters outside `rayT`, then answers with `is_interior`. On
      success the record holds the parameter, the point on the ray, the
      triangle's material and the texture pair `(v, w)`; on failure the
      caller's record is returned unchanged. */
  function Hit(tri: Tri, r: Ray, rayT: Interval, rec: HitRecord): (res: HitResult)
    requires WellFormed(tri)
    ensures !res.hit ==> res.rec == rec
    ensures tri.plane.Degenerate? ==> !res.hit
    ensures tri.plane.Plane? && Abs(Dot(tri.plane.normal, r.dir)) < ParallelEpsilon ==> !res.hit
    ensures (tri.plane.Plane? && Abs(Dot(tri.plane.normal, r.dir)) >= ParallelEpsilon
             && !Contains(rayT, PlaneParameter(tri.plane.normal, tri.plane.d, r))) ==> !res.hit
    ensures res.hit ==>
              && tri.plane.Plane?
              && Contains(rayT, res.rec.t)
              && res.rec.p == At(r, res.rec.t)
              && Dot(tri.plane.normal, res.rec.p) == tri.plane.d
              && res.rec.mat == tri.mat
              && 0.0 <= res.rec.u && 0.0 <= res.rec.v && res.rec.u + res.rec.v <= 1.0
              && res.rec.u == Barycentric(tri.v1, tri.v2, tri.v3, res.rec.p).v
              && res.rec.v == Barycentric(tri.v1, tri.v2, tri.v3, res.rec.p).w
  {
    match tri.plane
    case Degenerate => HitResult(false, rec)
    case Plane(normal, d) =>
      var denom := Dot(normal, r.dir);
      if Abs(denom) < ParallelEpsilon then HitResult(false, rec)
      else
        var t := PlaneParameter(normal, d, r);
        if !Contains(rayT, t) then HitResult(false, rec)
        else
          var p := At(r, t);
          PlaneParameterOnPlane(normal, d, r);
          var b := Barycentric(tri.v1, tri.v2, tri.v3, p);
          var inside := IsInterior(b.u, b.v, b.w, rec);
          if !inside.hit then HitResult(false, rec)
          else HitResult(true, inside.rec.(t := t, p := p, mat := tri.mat))
  }

  /** Zero-area triangles never report a hit. */
  lemma DegenerateNeverHits(v1: Vec3, v2: Vec3, v3: Vec3, mat: Material, sqrt: real -> real,
                            r: Ray, rayT: Interval, rec: HitRecord)
    requires IsSqrt(sqrt)
    requires AreaVector(v1, v2, v3) == Zero
    ensures !Hit(MakeTri(v1, v2, v3, mat, sqrt), r, rayT, rec).hit
  {
  }

  /** The point `a*v1 + b*v2 + c*v3`. */
  function Combination(a: real, b: real, c: real, v1: Vec3, v2: Vec3, v3: Vec3): Vec3 {
    Add(Add(Scale(a, v1), Scale(b, v2)), Scale(c, v3))
  }

  lemma CombinationOffsets(a: real, b: real, c: real, v1: Vec3, v2: Vec3, v3: Vec3)
    requires a + b + c == 1.0
    ensures Sub(Combination(a, b, c, v1, v2, v3), v2) == Add(Scale(a, Sub(v1, v2)), Scale(c, Sub(v3, v2)))
    ensures Sub(Combination(a, b, c, v1, v2, v3), v3) == Add(Scale(b, Sub(v2, v3)), Scale(a, Sub(v1, v3)))
    ensures Sub(Combination(a, b, c, v1, v2, v3), v1) == Add(Scale(c, Sub(v3, v1)), Scale(b, Sub(v2, v1)))
  {
    OffsetFrom(a, b, c, v1, v2, v3);
    OffsetFrom(b, c, a, v2, v3, v1);
    OffsetFrom(c, a, b, v3, v1, v2);
    assert Combination(b, c, a, v2, v3, v1) == Combination(a, b, c, v1, v2, v3);
    assert Combination(c, a, b, v3, v1, v2) == Combination(a, b, c, v1, v2, v3);
  }

  /** Offset of a weighted point from the middle vertex. */
  lemma OffsetFrom(a: real, b: real, c: real, v1: Vec3, v2: Vec3, v3: Vec3)
    requires a + b + c == 1.0
    ensures Sub(Combination(a, b, c, v1, v2, v3), v2) == Add(Scale(a, Sub(v1, v2)), Scale(c, Sub(v3, v2)))
  {
    AffineOffset(a, b, c, v1.x, v2.x, v3.x);
    AffineOffset(a, b, c, v1.y, v2.y, v3.y);
    AffineOffset(a, b, c, v1.z, v2.z, v3.z);
  }

  /** The ratios `Barycentric` computes for a point of the triangle's plane
      given by weights summing to one are those weights. */
  lemma BarycentricOfCombination(a: real, b: real, c: real, v1: Vec3, v2: Vec3, v3: Vec3)
    requires Dot(AreaVector(v1, v2, v3), AreaVector(v1, v2, v3)) != 0.0
    requires a + b + c == 1.0
    ensures Barycentric(v1, v2, v3, Combination(a, b, c, v1, v2, v3)) == Bary(a, b, c)
  {
    var area := AreaVector(v1, v2, v3);
    var q := Combination(a, b, c, v1, v2, v3);
    CombinationOffsets(a, b, c, v1, v2, v3);
    CrossRotation(v1, v2, v3);
    CrossCombination(Sub(v3, v2), Sub(v1, v2), a, c);
    CrossCombination(Sub(v1, v3), Sub(v2, v3), b, a);
    CrossCombination(Sub(v2, v1), Sub(v3, v1), c, b);
    RatioOfScaled(a, area, Cross(Sub(v3, v2), Sub(q, v2)));
    RatioOfScaled(b, area, Cross(Sub(v1, v3), Sub(q, v3)));
    RatioOfScaled(c, area, Cross(Sub(v2, v1), Sub(q, v1)));
  }

  /** Projecting `k * area` on `area` and dividing by its squared length gives `k`. */
  lemma RatioOfScaled(k: real, area: Vec3, n: Vec3)
    requires Dot(area, area) != 0.0
    requires n == Scale(k, area)
    ensures Dot(n, area) / Dot(area, area) == k
  {
    DotScaleLeft(k, area, area);
  }

  /** Every point of the triangle's plane satisfies `dot(normal, q) == D`. */
  lemma CombinationOnPlane(a: real, b: real, c: real, v1: Vec3, v2: Vec3, v3: Vec3, k: real)
    requires a + b + c == 1.0
    ensures Dot(Scale(k, AreaVector(v1, v2, v3)), Combination(a, b, c, v1, v2, v3))
            == Dot(Scale(k, AreaVector(v1, v2, v3)), v1)
  {
    var area := AreaVector(v1, v2, v3);
    var q := Combination(a, b, c, v1, v2, v3);
    CombinationOffsets(a, b, c, v1, v2, v3);
    CrossOrthogonal(Sub(v2, v1), Sub(v3, v1));
    OrthogonalToSpan(area, Sub(v3, v1), Sub(v2, v1), c, b, Sub(q, v1));
    SameLevel(k, area, q, v1);
  }

  /** A ray through a point of the plane at parameter `s`, not parallel to
      the plane, meets the plane exactly at `s`. */
  lemma PlaneParameterOfPoint(n: Vec3, d: real, r: Ray, s: real)
    requires Dot(n, r.dir) != 0.0
    requires Dot(n, At(r, s)) == d
    ensures PlaneParameter(n, d, r) == s
  {
    DotAddRight(n, r.orig, Scale(s, r.dir));
    DotScaleRight(s, n, r.dir);
  }

  /** A ray that passes, at an admissible parameter `s` and not parallel to
      the plane, through a point of the triangle (non-negative barycentric
      weights summing to one) is reported as a hit at exactly `s`, with the
      second and third weights as texture pair. */
  lemma HitInteriorPoint(v1: Vec3, v2: Vec3, v3: Vec3, mat: Material, sqrt: real -> real,
                         r: Ray, rayT: Interval, rec: HitRecord, s: real, a: real, b: real, c: real)
    requires IsSqrt(sqrt)
    requires Dot(AreaVector(v1, v2, v3), AreaVector(v1, v2, v3)) != 0.0
    requires 0.0 <= a && 0.0 <= b && 0.0 <= c && a + b + c == 1.0
    requires At(r, s) == Combination(a, b, c, v1, v2, v3)
    requires Abs(Dot(MakeTri(v1, v2, v3, mat, sqrt).plane.normal, r.dir)) >= ParallelEpsilon
    requires Contains(rayT, s)
    ensures Hit(MakeTri(v1, v2, v3, mat, sqrt), r, rayT, rec)
            == HitResult(true, rec.(p := At(r, s), t := s, mat := mat, u := b, v := c))
  {
    var tri := MakeTri(v1, v2, v3, mat, sqrt);
    var k := InverseLength(AreaVector(v1, v2, v3), sqrt);
    CombinationOnPlane(a, b, c, v1, v2, v3, k);
    PlaneParameterOfPoint(tri.plane.normal, tri.plane.d, r, s);
    BarycentricOfCombination(a, b, c, v1, v2, v3);
  }

  /** A ray that is not parallel to the plane and meets it at a point with
      a negative barycentric weight is never reported as a hit, whatever
      the interval. */
  lemma HitExteriorPoint(v1: Vec3, v2: Vec3, v3: Vec3, mat: Material, sqrt: real -> real,
                         r: Ray, rayT: Interval, rec: HitRecord, s: real, a: real, b: real, c: real)
    requires IsSqrt(sqrt)
    requires Dot(AreaVector(v1, v2, v3), AreaVector(v1, v2, v3)) != 0.0
    requires a + b + c == 1.0
    requires a < 0.0 || b < 0.0 || c < 0.0
    requires At(r, s) == Combination(a, b, c, v1, v2, v3)
    requires Abs(Dot(MakeTri(v1, v2, v3, mat, sqrt).plane.normal, r.dir)) >= ParallelEpsilon
    ensures !Hit(MakeTri(v1, v2, v3, mat, sqrt), r, rayT, rec).hit
  {
    var tri := MakeTri(v1, v2, v3, mat, sqrt);
    var k := InverseLength(AreaVector(v1, v2, v3), sqrt);
    CombinationOnPlane(a, b, c, v1, v2, v3, k);
    PlaneParameterOfPoint(tri.plane.normal, tri.plane.d, r, s);
    BarycentricOfCombination(a, b, c, v1, v2, v3);
  }
}
