/** Three-component vectors over exact reals, standing in for glam's `Vec3`
    (single-precision floats in the program; see README for what is abstracted). */
module Vectors {

  function Abs(r: real): real {
    if r < 0.0 then -r else r
  }

  datatype Vec3 = Vec3(x: real, y: real, z: real) {

    /** Component by axis index, as `v[i]` on a `Vec3` (any other index panics). */
    function At(i: nat): real
      requires i < 3
    {
      if i == 0 then x else if i == 1 then y else z
    }
  }

  function Add(a: Vec3, b: Vec3): Vec3 {
    Vec3(a.x + b.x, a.y + b.y, a.z + b.z)
  }

  function Sub(a: Vec3, b: Vec3): Vec3 {
    Vec3(a.x - b.x, a.y - b.y, a.z - b.z)
  }

  function Scale(k: real, a: Vec3): Vec3 {
    Vec3(k * a.x, k * a.y, k * a.z)
  }

  function Dot(a: Vec3, b: Vec3): real {
    a.x * b.x + a.y * b.y + a.z * b.z
  }

  function Cross(a: Vec3, b: Vec3): Vec3 {
    Vec3(a.y * b.z - a.z * b.y, a.z * b.x - a.x * b.z, a.x * b.y - a.y * b.x)
  }

  /** The point with weights `a`, `b`, `c` on `p`, `q`, `r`. */
  function Weighted(a: real, p: Vec3, b: real, q: Vec3, c: real, r: Vec3): Vec3 {
    Add(Add(Scale(a, p), Scale(b, q)), Scale(c, r))
  }

  /** A point of a plane, used for the two sheared in-plane coordinates. */
  datatype Point2 = Point2(x: real, y: real)

  function Sub2(p: Point2, q: Point2): Point2 {
    Point2(p.x - q.x, p.y - q.y)
  }

  /** The plane point with weights `a`, `b`, `c` on `p`, `q`, `r`. */
  function Weighted2(a: real, p: Point2, b: real, q: Point2, c: real, r: Point2): Point2 {
    Point2(a * p.x + b * q.x + c * r.x, a * p.y + b * q.y + c * r.y)
  }

  /** The z component of the cross product of two plane vectors. */
  function Cross2(p: Point2, q: Point2): real {
    p.x * q.y - p.y * q.x
  }

  /** Indexing distributes over the vector operations. */
  lemma AtOps(i: nat, a: Vec3, b: Vec3, k: real)
    requires i < 3
    ensures Sub(a, b).At(i) == a.At(i) - b.At(i)
    ensures Add(a, b).At(i) == a.At(i) + b.At(i)
    ensures Scale(k, a).At(i) == k * a.At(i)
  {
  }

  /** Two vectors that agree on every axis are equal. */
  lemma ExtensionalAt(a: Vec3, b: Vec3)
    requires forall i: nat :: i < 3 ==> a.At(i) == b.At(i)
    ensures a == b
  {
    assert a.At(0) == b.At(0) && a.At(1) == b.At(1) && a.At(2) == b.At(2);
  }

  /** Differences of two points taken from a common origin. */
  lemma SubCancel(a: Vec3, b: Vec3, o: Vec3)
    ensures Sub(Sub(a, o), Sub(b, o)) == Sub(a, b)
  {
  }

  /** Weights summing to one commute with moving the origin. */
  lemma WeightedRelative(a: real, p: Vec3, b: real, q: Vec3, c: real, r: Vec3, o: Vec3, t: real, d: Vec3)
    requires a + b + c == 1.0
    ensures Weighted(a, Sub(p, o), b, Sub(q, o), c, Sub(r, o)) == Scale(t, d)
            <==> Add(o, Scale(t, d)) == Weighted(a, p, b, q, c, r)
  {
    var w, w' := Weighted(a, Sub(p, o), b, Sub(q, o), c, Sub(r, o)), Weighted(a, p, b, q, c, r);
    assert w.x == w'.x - o.x && w.y == w'.y - o.y && w.z == w'.z - o.z;
  }

  /** Listing the weighted points in the other order gives the same point. */
  lemma WeightedReversed(a: real, p: Vec3, b: real, q: Vec3, c: real, r: Vec3)
    ensures Weighted(c, r, b, q, a, p) == Weighted(a, p, b, q, c, r)
  {
  }

  lemma DotNegated(a: Vec3, b: Vec3)
    ensures Dot(Scale(-1.0, a), b) == -Dot(a, b)
  {
  }
}
