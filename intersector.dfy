/** The watertight ray/triangle test of Woop, Benthin and Wald (JCGT 2013),
    `watertight_ray_triangle_intersection` in src/main.rs, over exact reals. */
module Intersector {
  import opened Vectors
  import opened Permutations

  datatype Option<T> = None | Some(value: T)

  /** A hit: barycentric weights u, v, w of the three vertices and the ray
      parameter t of the hit point. */
  datatype Hit = Hit(u: real, v: real, w: real, t: real)

  /** The vertices in winding order. */
  datatype Triangle = Triangle(v0: Vec3, v1: Vec3, v2: Vec3)

  /** The three per-call shear constants. */
  datatype Shear = Shear(sx: real, sy: real, sz: real)

  /** `f32::EPSILON`, 2^-23, exactly. */
  const Epsilon: real := 1.0 / 8388608.0

  /** The geometric normal of the triangle, `edge1.cross(edge2)`; its dot
      product with the direction is what the program logs as `facing`. */
  function Normal(tri: Triangle): Vec3 {
    Cross(Sub(tri.v1, tri.v0), Sub(tri.v2, tri.v0))
  }

  /** `index_max_abs_dim`: the first axis whose component has the largest
      magnitude. */
  function IndexMaxAbsDim(v: Vec3): (k: nat)
    ensures k < 3
    ensures forall i: nat :: i < 3 ==> Abs(v.At(i)) <= Abs(v.At(k))
    ensures forall i: nat :: i < k ==> Abs(v.At(i)) < Abs(v.At(k))
  {
    var ax, ay, az := Abs(v.x), Abs(v.y), Abs(v.z);
    if ax >= ay && ax >= az then 0
    else if ay >= ax && ay >= az then 1
    else 2
  }

  /** kz is the dominant axis, kx and ky follow it cyclically and are swapped
      when the direction points down kz, so that the frame is a rotation exactly
      when it does not. */
  function PermutedAxes(direction: Vec3): (p: Axes)
    ensures IsPermutation(p)
    ensures p.kz == IndexMaxAbsDim(direction)
    ensures IsEven(p) <==> direction.At(p.kz) >= 0.0
    ensures p.ky == (p.kx + 1) % 3 <==> direction.At(p.kz) >= 0.0
  {
    var kz := IndexMaxAbsDim(direction);
    var kx := (kz + 1) % 3;
    var ky := (kx + 1) % 3;
    if direction.At(kz) < 0.0 then Axes(ky, kx, kz) else Axes(kx, ky, kz)
  }

  /** The direction passes the degenerate-direction guard on its dominant
      component: exactly when some component has magnitude at least `Epsilon`. */
  function Usable(direction: Vec3): (ok: bool)
    ensures ok <==> Abs(direction.x) >= Epsilon || Abs(direction.y) >= Epsilon || Abs(direction.z) >= Epsilon
  {
    Abs(direction.At(PermutedAxes(direction).kz)) >= Epsilon
  }

  /** The shear constants for the direction `d` seen in the frame: the shear
      sends `d` to the unit vector along kz. */
  function ShearOf(d: Vec3): (s: Shear)
    requires d.z != 0.0
    ensures d.x - s.sx * d.z == 0.0 && d.y - s.sy * d.z == 0.0
    ensures s.sz * d.z == 1.0
  {
    Shear(d.x / d.z, d.y / d.z, 1.0 / d.z)
  }

  /** The sheared in-plane coordinates of a ray-relative vertex seen in the frame. */
  function ShearXY(q: Vec3, s: Shear): Point2 {
    Point2(q.x - s.sx * q.z, q.y - s.sy * q.z)
  }

  /** The sheared and scaled kz coordinate of a ray-relative vertex seen in the frame. */
  function ShearZ(q: Vec3, s: Shear): real {
    s.sz * q.z
  }

  /** The scaled barycentric coordinates of the ray (the origin of the
      sheared plane) with respect to the sheared vertices a, b, c. */
  function ScaledBarycentrics(a: Point2, b: Point2, c: Point2): (real, real, real)
  {
    var u := Cross2(c, b);
    var v := Cross2(a, c);
    var w := Cross2(b, a);
    if Abs(u) < Epsilon || Abs(v) < Epsilon || Abs(w) < Epsilon then
      // recomputed in double precision, which exact arithmetic does not distinguish
      (Cross2(c, b), Cross2(a, c), Cross2(b, a))
    else
      (u, v, w)
  }

  /** The scaled barycentrics of the ray, from the ray-relative vertices `a`,
      `b`, `c` and the direction `d`, all seen in the frame. */
  function ScaledOf(a: Vec3, b: Vec3, c: Vec3, d: Vec3): (real, real, real)
    requires d.z != 0.0
  {
    var s := ShearOf(d);
    ScaledBarycentrics(ShearXY(a, s), ShearXY(b, s), ShearXY(c, s))
  }

  /** The determinant `u + v + w` of a triple of scaled barycentrics. */
  function Det(r: (real, real, real)): real {
    r.0 + r.1 + r.2
  }

  /** The scaled hit distance: the scaled barycentrics weigh the sheared and
      scaled kz coordinates of the vertices. */
  function ScaledDistance(a: Vec3, b: Vec3, c: Vec3, d: Vec3, u: real, v: real, w: real): real
    requires d.z != 0.0
  {
    var s := ShearOf(d);
    u * ShearZ(a, s) + v * ShearZ(b, s) + w * ShearZ(c, s)
  }

  /** The edge test: with culling every scaled barycentric must be
      non-negative, without it they must not have mixed signs, so that all of
      them are non-negative or all of them are non-positive. */
  function PassesEdgeTest(u: real, v: real, w: real, backfaceCulling: bool): (ok: bool)
    ensures ok <==> (u >= 0.0 && v >= 0.0 && w >= 0.0)
                    || (!backfaceCulling && u <= 0.0 && v <= 0.0 && w <= 0.0)
  {
    if backfaceCulling then !(u < 0.0 || v < 0.0 || w < 0.0)
    else !((u < 0.0 || v < 0.0 || w < 0.0) && (u > 0.0 || v > 0.0 || w > 0.0))
  }

  /** `sign_mask` on the value rather than on the pattern (`SignBits.SignMask`
      is the pattern-level helper): 1 for a negative value, 0 otherwise. */
  function NegativeMask(x: real): (m: bv32)
    ensures m == 0 || m == 1
    ensures m == 1 <==> x < 0.0
  {
    if x < 0.0 then 1 else 0
  }

  /** `xorf` on the value rather than on the pattern (`SignBits.Xorf` is the
      pattern-level helper): the magnitude is kept, and the value changes
      exactly when bit 0 of the mask is set and the value is not zero. */
  function NegateIf(x: real, mask: bv32): (r: real)
    ensures Abs(r) == Abs(x)
    ensures r == x <==> mask & 1 == 0 || x == 0.0
  {
    if mask & 1 == 1 then -x else x
  }

  /** The determinant block: after the edge test and the zero check, negating
      everything when the determinant is negative leaves a positive
      determinant and non-negative scaled barycentrics of the same ratios. */
  function NormalizeSign(u: real, v: real, w: real, backfaceCulling: bool): (r: (real, real, real, real))
    requires PassesEdgeTest(u, v, w, backfaceCulling) && Det((u, v, w)) != 0.0
    ensures r.0 >= 0.0 && r.1 >= 0.0 && r.2 >= 0.0
    ensures r.3 == r.0 + r.1 + r.2 && r.3 > 0.0
    ensures r == (u, v, w, u + v + w) || r == (-u, -v, -w, -(u + v + w))
    ensures NegativeMask(r.3) == 0
  {
    var det := u + v + w;
    if det < 0.0 then (-u, -v, -w, -det) else (u, v, w, det)
  }

  /** The vertices relative to the origin and the direction, seen in the
      frame of the permutation. */
  function InFrame(q: Vec3, direction: Vec3): Vec3 {
    Permute(q, PermutedAxes(direction))
  }

  /** The intersector. A hit has non-negative barycentrics summing to one and
      a non-negative distance, and only comes from a usable direction. */
  function Intersect(origin: Vec3, direction: Vec3, tri: Triangle, backfaceCulling: bool): (r: Option<Hit>)
    ensures r.Some? ==> Usable(direction)
    ensures r.Some? ==> r.value.u >= 0.0 && r.value.v >= 0.0 && r.value.w >= 0.0
    ensures r.Some? ==> r.value.u + r.value.v + r.value.w == 1.0
    ensures r.Some? ==> r.value.t >= 0.0
  {
    var p := PermutedAxes(direction);
    if Abs(direction.At(p.kz)) < Epsilon then None
    else
      IntersectInFrame(InFrame(Sub(tri.v0, origin), direction), InFrame(Sub(tri.v1, origin), direction),
                       InFrame(Sub(tri.v2, origin), direction), InFrame(direction, direction),
                       backfaceCulling)
  }

  /** The intersector once the frame is chosen: `a`, `b`, `c` are the vertices
      relative to the origin and `d` the direction, seen in the frame. A hit
      comes from scaled barycentrics that pass the edge test and have a
      non-zero sum. */
  function IntersectInFrame(a: Vec3, b: Vec3, c: Vec3, d: Vec3, backfaceCulling: bool): (r: Option<Hit>)
    requires d.z != 0.0
    ensures r.Some? ==> var (u, v, w) := ScaledOf(a, b, c, d);
                        PassesEdgeTest(u, v, w, backfaceCulling) && Det((u, v, w)) != 0.0
    ensures r.Some? ==> r.value.u >= 0.0 && r.value.v >= 0.0 && r.value.w >= 0.0
    ensures r.Some? ==> r.value.u + r.value.v + r.value.w == 1.0
    ensures r.Some? ==> r.value.t >= 0.0
  {
    var (u, v, w) := ScaledOf(a, b, c, d);
    if !PassesEdgeTest(u, v, w, backfaceCulling) then None
    else if Det((u, v, w)) == 0.0 then None
    else
      var (u, v, w, det) := NormalizeSign(u, v, w, backfaceCulling);
      var t := ScaledDistance(a, b, c, d, u, v, w);
      var t := NegateIf(t, NegativeMask(det));
      if t < 0.0 then None
      else Some(NormalizedHit(u, v, w, t, det))
  }

  /** The final normalisation by the reciprocal of the determinant: the
      weights become non-negative fractions summing to one, and the distance
      stays non-negative. */
  function NormalizedHit(u: real, v: real, w: real, t: real, det: real): (h: Hit)
    requires det == u + v + w && det > 0.0
    requires u >= 0.0 && v >= 0.0 && w >= 0.0 && t >= 0.0
    ensures h.u >= 0.0 && h.v >= 0.0 && h.w >= 0.0 && h.t >= 0.0
    ensures h.u + h.v + h.w == 1.0
    ensures h.u * det == u && h.v * det == v && h.w * det == w && h.t * det == t
  {
    var rd := 1.0 / det;
    Hit(u * rd, v * rd, w * rd, t * rd)
  }
}
