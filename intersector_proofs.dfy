/** What the intersector computes, proved about the model of `Intersect`: the
    determinant has the opposite sign of the facing of the triangle, a hit lies
    on the ray and on the triangle, every such point is found, and the two
    culling policies and the two windings relate as the algorithm promises. */
module IntersectorProofs {
  import opened Vectors
  import opened Permutations
  import opened Intersector
  import opened Frame

  /** The scaled barycentrics the intersector computes for a usable direction. */
  function ScaledFor(origin: Vec3, direction: Vec3, tri: Triangle): (real, real, real)
    requires Usable(direction)
  {
    ScaledOf(InFrame(Sub(tri.v0, origin), direction), InFrame(Sub(tri.v1, origin), direction),
             InFrame(Sub(tri.v2, origin), direction), InFrame(direction, direction))
  }

  /** The triangle with its winding reversed. */
  function Reverse(tri: Triangle): Triangle {
    Triangle(tri.v2, tri.v1, tri.v0)
  }

  // ---------------------------------------------------------------------
  // The determinant is the facing of the triangle

  /** The facing of the triangle seen in a frame: kept by a rotation, negated
      by a reflection. */
  lemma FrameFacing(e1: Vec3, e2: Vec3, d: Vec3, p: Axes)
    requires IsPermutation(p)
    ensures Dot(Cross(Permute(e1, p), Permute(e2, p)), Permute(d, p))
            == if IsEven(p) then Dot(Cross(e1, e2), d) else -Dot(Cross(e1, e2), d)
  {
    PermuteCross(e1, e2, p);
    PermuteDot(Cross(e1, e2), d, p);
    if !IsEven(p) {
      DotNegated(Permute(Cross(e1, e2), p), Permute(d, p));
    }
  }

  /** Dividing by the dominant component and undoing the reflection of an odd
      frame: the sign of `dz` is exactly the parity of the frame. */
  lemma SignedQuotient(det: real, x: real, dz: real, facing: real, even: bool)
    requires dz != 0.0 && det == -(x / dz)
    requires x == if even then facing else -facing
    requires even <==> dz >= 0.0
    ensures det > 0.0 <==> facing < 0.0
    ensures det < 0.0 <==> facing > 0.0
  {
  }

  /** The guard `|dir[kz]| >= EPSILON` leaves a non-zero component to divide by. */
  lemma UsableNonZero(direction: Vec3)
    requires Usable(direction)
    ensures InFrame(direction, direction).z != 0.0
  {
  }

  /** The determinant `u + v + w` has the opposite sign of the facing of the
      triangle, `Dot(Normal(tri), direction)`: it is positive exactly for a
      triangle whose normal points against the ray, whatever the frame. */
  lemma DeterminantIsFacing(origin: Vec3, direction: Vec3, tri: Triangle)
    requires Usable(direction)
    ensures Det(ScaledFor(origin, direction, tri)) > 0.0 <==> Dot(Normal(tri), direction) < 0.0
    ensures Det(ScaledFor(origin, direction, tri)) < 0.0 <==> Dot(Normal(tri), direction) > 0.0
  {
    UsableNonZero(direction);
    FrameDeterminant(InFrame(Sub(tri.v0, origin), direction), InFrame(Sub(tri.v1, origin), direction),
                     InFrame(Sub(tri.v2, origin), direction), InFrame(direction, direction));
    SubCancel(tri.v1, tri.v0, origin);
    SubCancel(tri.v2, tri.v0, origin);
    PermuteSub(Sub(tri.v1, origin), Sub(tri.v0, origin), PermutedAxes(direction));
    PermuteSub(Sub(tri.v2, origin), Sub(tri.v0, origin), PermutedAxes(direction));
    FrameFacing(Sub(tri.v1, tri.v0), Sub(tri.v2, tri.v0), direction, PermutedAxes(direction));
    SignedQuotient(Det(ScaledFor(origin, direction, tri)),
                   Dot(Cross(Permute(Sub(tri.v1, tri.v0), PermutedAxes(direction)),
                             Permute(Sub(tri.v2, tri.v0), PermutedAxes(direction))),
                       Permute(direction, PermutedAxes(direction))),
                   InFrame(direction, direction).z, Dot(Normal(tri), direction),
                   IsEven(PermutedAxes(direction)));
  }

  // ---------------------------------------------------------------------
  // Soundness

  /** A hit lies on the ray, at distance `t` along it, and on the triangle,
      with weights `u`, `v`, `w` on its vertices. */
  lemma HitOnRayAndTriangle(origin: Vec3, direction: Vec3, tri: Triangle, backfaceCulling: bool)
    requires Intersect(origin, direction, tri, backfaceCulling).Some?
    ensures var h := Intersect(origin, direction, tri, backfaceCulling).value;
            Add(origin, Scale(h.t, direction)) == Weighted(h.u, tri.v0, h.v, tri.v1, h.w, tri.v2)
  {
    UsableNonZero(direction);
    var h := Intersect(origin, direction, tri, backfaceCulling).value;
    FrameHitOnRay(InFrame(Sub(tri.v0, origin), direction), InFrame(Sub(tri.v1, origin), direction),
                  InFrame(Sub(tri.v2, origin), direction), InFrame(direction, direction), backfaceCulling);
    PermuteWeighted(h.u, Sub(tri.v0, origin), h.v, Sub(tri.v1, origin), h.w, Sub(tri.v2, origin),
                    PermutedAxes(direction));
    PermuteScale(h.t, direction, PermutedAxes(direction));
    PermuteInjective(Weighted(h.u, Sub(tri.v0, origin), h.v, Sub(tri.v1, origin), h.w, Sub(tri.v2, origin)),
                     Scale(h.t, direction), PermutedAxes(direction));
    WeightedRelative(h.u, tri.v0, h.v, tri.v1, h.w, tri.v2, origin, h.t, direction);
  }

  /** A hit never comes from a ray parallel to the triangle's plane, and with
      culling only from a triangle facing the ray. */
  lemma HitFacing(origin: Vec3, direction: Vec3, tri: Triangle, backfaceCulling: bool)
    requires Intersect(origin, direction, tri, backfaceCulling).Some?
    ensures Dot(Normal(tri), direction) != 0.0
    ensures backfaceCulling ==> Dot(Normal(tri), direction) < 0.0
  {
    UsableNonZero(direction);
    DeterminantIsFacing(origin, direction, tri);
  }

  // ---------------------------------------------------------------------
  // Completeness

  /** A point of the triangle (non-negative weights summing to one) at a
      non-negative distance along a usable ray is found, with exactly those
      weights and that distance, unless the ray is parallel to the triangle,
      or, with culling, the triangle faces away. */
  lemma HitWhenRayMeetsTriangle(origin: Vec3, direction: Vec3, tri: Triangle, backfaceCulling: bool,
                                ka: real, kb: real, kc: real, t: real)
    requires Usable(direction)
    requires ka >= 0.0 && kb >= 0.0 && kc >= 0.0 && ka + kb + kc == 1.0 && t >= 0.0
    requires Add(origin, Scale(t, direction)) == Weighted(ka, tri.v0, kb, tri.v1, kc, tri.v2)
    requires Dot(Normal(tri), direction) != 0.0
    requires backfaceCulling ==> Dot(Normal(tri), direction) < 0.0
    ensures Intersect(origin, direction, tri, backfaceCulling) == Some(Hit(ka, kb, kc, t))
  {
    UsableNonZero(direction);
    WeightedRelative(ka, tri.v0, kb, tri.v1, kc, tri.v2, origin, t, direction);
    PermuteWeighted(ka, Sub(tri.v0, origin), kb, Sub(tri.v1, origin), kc, Sub(tri.v2, origin),
                    PermutedAxes(direction));
    PermuteScale(t, direction, PermutedAxes(direction));
    DeterminantIsFacing(origin, direction, tri);
    FrameHitComplete(InFrame(Sub(tri.v0, origin), direction), InFrame(Sub(tri.v1, origin), direction),
                     InFrame(Sub(tri.v2, origin), direction), InFrame(direction, direction),
                     backfaceCulling, ka, kb, kc, t);
  }

  /** A ray parallel to the triangle's plane has a zero determinant and misses. */
  lemma ParallelRayMisses(origin: Vec3, direction: Vec3, tri: Triangle, backfaceCulling: bool)
    requires Dot(Normal(tri), direction) == 0.0
    ensures Intersect(origin, direction, tri, backfaceCulling) == None
  {
    if Intersect(origin, direction, tri, backfaceCulling).Some? {
      HitFacing(origin, direction, tri, backfaceCulling);
    }
  }

  // ---------------------------------------------------------------------
  // Culling and winding

  /** Culling keeps the hits on triangles facing the ray and drops the others. */
  lemma CullingKeepsFrontFaces(origin: Vec3, direction: Vec3, tri: Triangle)
    ensures Intersect(origin, direction, tri, true)
            == if Dot(Normal(tri), direction) < 0.0 then Intersect(origin, direction, tri, false) else None
  {
    if Intersect(origin, direction, tri, true).Some? {
      var h := Intersect(origin, direction, tri, true).value;
      HitFacing(origin, direction, tri, true);
      HitOnRayAndTriangle(origin, direction, tri, true);
      HitWhenRayMeetsTriangle(origin, direction, tri, false, h.u, h.v, h.w, h.t);
    } else if Dot(Normal(tri), direction) < 0.0 && Intersect(origin, direction, tri, false).Some? {
      var h := Intersect(origin, direction, tri, false).value;
      HitOnRayAndTriangle(origin, direction, tri, false);
      HitWhenRayMeetsTriangle(origin, direction, tri, true, h.u, h.v, h.w, h.t);
    }
  }

  /** The normal is perpendicular to both edges, so to the triangle's plane. */
  lemma NormalPerpendicular(tri: Triangle)
    ensures Dot(Normal(tri), Sub(tri.v1, tri.v0)) == 0.0
    ensures Dot(Normal(tri), Sub(tri.v2, tri.v0)) == 0.0
  {
  }

  /** Reversing the winding negates the normal. */
  lemma ReverseNormal(tri: Triangle, direction: Vec3)
    ensures Dot(Normal(Reverse(tri)), direction) == -Dot(Normal(tri), direction)
  {
  }

  /** A hit on one winding, without culling, is a hit on the other with the
      weights of the first and last vertex exchanged. */
  lemma ReversedHit(origin: Vec3, direction: Vec3, tri: Triangle)
    requires Intersect(origin, direction, tri, false).Some?
    ensures var h := Intersect(origin, direction, tri, false).value;
            Intersect(origin, direction, Reverse(tri), false) == Some(Hit(h.w, h.v, h.u, h.t))
  {
    var h := Intersect(origin, direction, tri, false).value;
    HitFacing(origin, direction, tri, false);
    HitOnRayAndTriangle(origin, direction, tri, false);
    WeightedReversed(h.u, tri.v0, h.v, tri.v1, h.w, tri.v2);
    ReverseNormal(tri, direction);
    HitWhenRayMeetsTriangle(origin, direction, Reverse(tri), false, h.w, h.v, h.u, h.t);
  }

  /** Without culling the winding does not matter: the two windings hit or
      miss together, at the same point. */
  lemma ReversedWinding(origin: Vec3, direction: Vec3, tri: Triangle)
    ensures Intersect(origin, direction, Reverse(tri), false)
            == match Intersect(origin, direction, tri, false)
               case None => None
               case Some(h) => Some(Hit(h.w, h.v, h.u, h.t))
  {
    if Intersect(origin, direction, tri, false).Some? {
      ReversedHit(origin, direction, tri);
    } else if Intersect(origin, direction, Reverse(tri), false).Some? {
      ReversedHit(origin, direction, Reverse(tri));
    }
  }

  /** With culling, a ray that meets the triangle hits exactly one of its two
      windings. */
  lemma CullingHitsOneWinding(origin: Vec3, direction: Vec3, tri: Triangle)
    requires Intersect(origin, direction, tri, false).Some?
    ensures Intersect(origin, direction, tri, true).Some?
            != Intersect(origin, direction, Reverse(tri), true).Some?
  {
    HitFacing(origin, direction, tri, false);
    ReverseNormal(tri, direction);
    ReversedHit(origin, direction, tri);
    CullingKeepsFrontFaces(origin, direction, tri);
    CullingKeepsFrontFaces(origin, direction, Reverse(tri));
  }
}
