/** The renderer's ray: an immutable parametric line `orig + t*dir` with a
    time stamp used for motion blur. */
module Rays {
  import opened Vec

  datatype Ray = Ray(orig: Vec3, dir: Vec3, time: real)

  /** The two-argument constructor: a ray at time zero. */
  function MakeRay(origin: Vec3, direction: Vec3): (r: Ray)
    ensures r.orig == origin && r.dir == direction
    ensures r.time == 0.0
  {
    Ray(origin, direction, 0.0)
  }

  /** The point reached after travelling `t` units of the direction. */
  function At(r: Ray, t: real): (p: Vec3)
    ensures Sub(p, r.orig) == Scale(t, r.dir)
  {
    Add(r.orig, Scale(t, r.dir))
  }

  lemma AtZero(r: Ray)
    ensures At(r, 0.0) == r.orig
  {
  }

  lemma AtOne(r: Ray)
    ensures At(r, 1.0) == Add(r.orig, r.dir)
  {
  }

  /** Moving along the ray is affine in the parameter. */
  lemma AtDifference(r: Ray, t: real, s: real)
    ensures Sub(At(r, t), At(r, s)) == Scale(t - s, r.dir)
  {
  }

  /** A ray with a non-zero direction visits each of its points once: the
      parameter is recovered from the point by projecting on the direction. */
  lemma AtRecoversParameter(r: Ray, t: real)
    requires Dot(r.dir, r.dir) != 0.0
    ensures Dot(Sub(At(r, t), r.orig), r.dir) / Dot(r.dir, r.dir) == t
  {
    assert Dot(Scale(t, r.dir), r.dir) == t * Dot(r.dir, r.dir);
  }

  /** Distinct parameters give distinct points on a ray with a non-zero
      direction. */
  lemma AtInjective(r: Ray, t: real, s: real)
    requires Dot(r.dir, r.dir) != 0.0
    requires At(r, t) == At(r, s)
    ensures t == s
  {
    AtRecoversParameter(r, t);
    AtRecoversParameter(r, s);
  }
}
