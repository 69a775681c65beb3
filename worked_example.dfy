/** The worked example of `example_triangle_ray_test`: a ray from the origin
    along +z towards a triangle in the plane z = 5, with back-face culling on,
    first in the source's winding and then reversed. */
module Examples {
  import opened Vectors
  import opened Permutations
  import opened Intersector
  import opened Frame
  import opened IntersectorProofs

  const Origin: Vec3 := Vec3(0.0, 0.0, 0.0)
  const Direction: Vec3 := Vec3(0.0, 0.0, 1.0)

  /** The triangle as first given; its normal points along +z, away from the ray. */
  const Example: Triangle := Triangle(Vec3(1.0, 0.0, 5.0), Vec3(-1.0, 1.0, 5.0), Vec3(-1.0, -1.0, 5.0))

  /** The same triangle with the reversed winding. */
  const Reversed: Triangle := Triangle(Vec3(-1.0, -1.0, 5.0), Vec3(-1.0, 1.0, 5.0), Vec3(1.0, 0.0, 5.0))

  /** The direction is its own frame: kz is z and the permutation is the identity. */
  lemma DirectionFrame(q: Vec3)
    ensures PermutedAxes(Direction) == Axes(0, 1, 2)
    ensures Usable(Direction)
    ensures InFrame(q, Direction) == q
  {
    assert IndexMaxAbsDim(Direction) == 2;
  }

  lemma DirectionShear()
    ensures ShearOf(Direction) == Shear(0.0, 0.0, 1.0)
  {
  }

  /** The shear of a direction along +z leaves the in-plane coordinates alone. */
  lemma UnitShear(q: Vec3, s: Shear)
    requires s == Shear(0.0, 0.0, 1.0)
    ensures ShearXY(q, s) == Point2(q.x, q.y)
  {
  }

  /** The scaled barycentrics of the sheared vertices of the first winding. */
  lemma ExampleCrosses(a: Point2, b: Point2, c: Point2)
    requires a == Point2(1.0, 0.0) && b == Point2(-1.0, 1.0) && c == Point2(-1.0, -1.0)
    ensures ScaledBarycentrics(a, b, c) == (-2.0, -1.0, -1.0)
  {
    ScaledBarycentricsAreCrosses(a, b, c);
  }

  /** The facing of a triangle in the plane z = 5 with the vertices of the
      example, in either winding. */
  lemma FacingOf(tri: Triangle, facing: real)
    requires tri == Example || tri == Reversed
    requires facing == if tri == Example then 4.0 else -4.0
    ensures Dot(Normal(tri), Direction) == facing
  {
  }

  /** The first winding faces away from the ray, the reversed one towards it. */
  lemma ExampleFacing()
    ensures Dot(Normal(Example), Direction) == 4.0
    ensures Dot(Normal(Reversed), Direction) == -4.0
  {
    FacingOf(Example, 4.0);
    FacingOf(Reversed, -4.0);
  }

  /** The hit point (0, 0, 5) with the weights of either winding. */
  lemma ExamplePoint()
    ensures Add(Origin, Scale(5.0, Direction)) == Weighted(0.5, Example.v0, 0.25, Example.v1, 0.25, Example.v2)
    ensures Add(Origin, Scale(5.0, Direction)) == Weighted(0.25, Reversed.v0, 0.25, Reversed.v1, 0.5, Reversed.v2)
  {
  }

  /** Along +z the frame is the identity and the shear leaves x and y alone. */
  lemma AlongZ(origin: Vec3, tri: Triangle)
    ensures Usable(Direction)
    ensures var a, b, c := Sub(tri.v0, origin), Sub(tri.v1, origin), Sub(tri.v2, origin);
            ScaledFor(origin, Direction, tri)
            == ScaledBarycentrics(Point2(a.x, a.y), Point2(b.x, b.y), Point2(c.x, c.y))
  {
    DirectionFrame(Sub(tri.v0, origin));
    DirectionFrame(Sub(tri.v1, origin));
    DirectionFrame(Sub(tri.v2, origin));
    DirectionFrame(Direction);
    DirectionShear();
    UnitShear(Sub(tri.v0, origin), ShearOf(Direction));
    UnitShear(Sub(tri.v1, origin), ShearOf(Direction));
    UnitShear(Sub(tri.v2, origin), ShearOf(Direction));
  }

  /** The scaled barycentrics of the first winding. */
  lemma ExampleScaled()
    ensures Usable(Direction) && ScaledFor(Origin, Direction, Example) == (-2.0, -1.0, -1.0)
  {
    ExampleCrosses(Point2(Sub(Example.v0, Origin).x, Sub(Example.v0, Origin).y),
                   Point2(Sub(Example.v1, Origin).x, Sub(Example.v1, Origin).y),
                   Point2(Sub(Example.v2, Origin).x, Sub(Example.v2, Origin).y));
    AlongZ(Origin, Example);
  }

  /** With culling, the first winding gives the scaled barycentrics
      (-2, -1, -1), which fail the edge test: no intersection. */
  lemma ExampleCulled()
    ensures Usable(Direction) && ScaledFor(Origin, Direction, Example) == (-2.0, -1.0, -1.0)
    ensures Intersect(Origin, Direction, Example, true) == None
  {
    ExampleScaled();
    ExampleFacing();
    CullingKeepsFrontFaces(Origin, Direction, Example);
  }

  /** A triangle that the ray along +z from the origin meets at distance 5. */
  lemma HitAlongZ(tri: Triangle, backfaceCulling: bool, ka: real, kb: real, kc: real)
    requires ka >= 0.0 && kb >= 0.0 && kc >= 0.0 && ka + kb + kc == 1.0
    requires Add(Origin, Scale(5.0, Direction)) == Weighted(ka, tri.v0, kb, tri.v1, kc, tri.v2)
    requires Dot(Normal(tri), Direction) != 0.0
    requires backfaceCulling ==> Dot(Normal(tri), Direction) < 0.0
    ensures Intersect(Origin, Direction, tri, backfaceCulling) == Some(Hit(ka, kb, kc, 5.0))
  {
    DirectionFrame(Direction);
    HitWhenRayMeetsTriangle(Origin, Direction, tri, backfaceCulling, ka, kb, kc, 5.0);
  }

  /** The hit on the reversed winding, from its point and facing. */
  lemma ReversedAlongZ(tri: Triangle)
    requires Add(Origin, Scale(5.0, Direction)) == Weighted(0.25, tri.v0, 0.25, tri.v1, 0.5, tri.v2)
    requires Dot(Normal(tri), Direction) == -4.0
    ensures Intersect(Origin, Direction, tri, true) == Some(Hit(0.25, 0.25, 0.5, 5.0))
  {
    HitAlongZ(tri, true, 0.25, 0.25, 0.5);
  }

  /** The unculled hit on the first winding, from its point and facing. */
  lemma ExampleAlongZ(tri: Triangle)
    requires Add(Origin, Scale(5.0, Direction)) == Weighted(0.5, tri.v0, 0.25, tri.v1, 0.25, tri.v2)
    requires Dot(Normal(tri), Direction) == 4.0
    ensures Intersect(Origin, Direction, tri, false) == Some(Hit(0.5, 0.25, 0.25, 5.0))
  {
    HitAlongZ(tri, false, 0.5, 0.25, 0.25);
  }

  /** With culling, the reversed winding is hit at t = 5 with weights
      1/4, 1/4, 1/2. */
  lemma ReversedHitAtFive()
    ensures Reversed == Reverse(Example)
    ensures Intersect(Origin, Direction, Reversed, true) == Some(Hit(0.25, 0.25, 0.5, 5.0))
  {
    ExamplePoint();
    ExampleFacing();
    ReversedAlongZ(Reversed);
  }

  /** Without culling, the first winding is hit at the same point, with the
      weights of the first and last vertex exchanged. */
  lemma ExampleUnculled()
    ensures Intersect(Origin, Direction, Example, false) == Some(Hit(0.5, 0.25, 0.25, 5.0))
  {
    ExamplePoint();
    ExampleFacing();
    ExampleAlongZ(Example);
  }

  /** A ray pointing away from the triangle misses it: the hit would be at t = -5. */
  lemma ExampleBehind()
    ensures Intersect(Origin, Vec3(0.0, 0.0, -1.0), Example, false) == None
  {
    var r := Intersect(Origin, Vec3(0.0, 0.0, -1.0), Example, false);
    if r.Some? {
      HitOnRayAndTriangle(Origin, Vec3(0.0, 0.0, -1.0), Example, false);
      assert false;
    }
  }

  /** A zero direction fails the degenerate-direction guard. */
  lemma ZeroDirectionMisses(tri: Triangle, backfaceCulling: bool)
    ensures Intersect(Origin, Vec3(0.0, 0.0, 0.0), tri, backfaceCulling) == None
  {
    assert !Usable(Vec3(0.0, 0.0, 0.0));
  }
}
