/** The intersector once the frame (kx, ky, kz) is chosen, proved on plain
    vectors: `a`, `b`, `c` are the vertices relative to the ray origin and `d`
    the ray direction, all seen in the frame, so that x, y and z stand for kx,
    ky and kz. */
module Frame {
  import opened Vectors
  import opened Intersector

  // ---------------------------------------------------------------------
  // The determinant

  /** The scaled barycentrics weigh the sheared vertices to the sheared ray
      (the origin of the plane), and their sum is minus twice the signed area
      of the sheared triangle a, b, c (twice that of the reversed winding
      c, b, a). */
  lemma ScaledBarycentricsWeighOrigin(a: Point2, b: Point2, c: Point2)
    ensures var r := ScaledBarycentrics(a, b, c);
            r.0 * a.x + r.1 * b.x + r.2 * c.x == 0.0
            && r.0 * a.y + r.1 * b.y + r.2 * c.y == 0.0
            && Det(r) == Cross2(Sub2(c, a), Sub2(b, a))
  {
  }

  lemma ShearXYSub(a: Vec3, b: Vec3, s: Shear)
    ensures Sub2(ShearXY(a, s), ShearXY(b, s)) == ShearXY(Sub(a, b), s)
  {
    var l, r := Sub2(ShearXY(a, s), ShearXY(b, s)), ShearXY(Sub(a, b), s);
    assert l.x == r.x by {
      assert s.sx * (a.z - b.z) == s.sx * a.z - s.sx * b.z;
    }
    assert l.y == r.y by {
      assert s.sy * (a.z - b.z) == s.sy * a.z - s.sy * b.z;
    }
  }

  /** The cross product of two sheared edges, in terms of the edges' normal. */
  lemma ShearedCross(e: Vec3, f: Vec3, s: Shear)
    ensures Cross2(ShearXY(f, s), ShearXY(e, s))
            == -(Cross(e, f).z + s.sx * Cross(e, f).x + s.sy * Cross(e, f).y)
  {
  }

  lemma ShearedDot(n: Vec3, d: Vec3)
    requires d.z != 0.0
    ensures n.z + ShearOf(d).sx * n.x + ShearOf(d).sy * n.y == Dot(n, d) / d.z
  {
    calc {
      n.z + ShearOf(d).sx * n.x + ShearOf(d).sy * n.y;
      n.z + (d.x / d.z) * n.x + (d.y / d.z) * n.y;
      (n.z * d.z + d.x * n.x + d.y * n.y) / d.z;
      Dot(n, d) / d.z;
    }
  }

  /** The determinant is minus the facing of the triangle in the frame divided
      by the kz component of the direction. */
  lemma FrameDeterminant(a: Vec3, b: Vec3, c: Vec3, d: Vec3)
    requires d.z != 0.0
    ensures Det(ScaledOf(a, b, c, d)) == -(Dot(Cross(Sub(b, a), Sub(c, a)), d) / d.z)
  {
    var s := ShearOf(d);
    ScaledBarycentricsWeighOrigin(ShearXY(a, s), ShearXY(b, s), ShearXY(c, s));
    ShearXYSub(c, a, s);
    ShearXYSub(b, a, s);
    ShearedCross(Sub(b, a), Sub(c, a), s);
    ShearedDot(Cross(Sub(b, a), Sub(c, a)), d);
  }

  // ---------------------------------------------------------------------
  // The sign flip

  /** `xorf(t, sign_mask(det))` is `t` itself: `det` has been made positive
      first, so the intersector is the same computation without the flip. */
  lemma WithoutSignFlip(a: Vec3, b: Vec3, c: Vec3, d: Vec3, backfaceCulling: bool)
    requires d.z != 0.0
    ensures IntersectInFrame(a, b, c, d, backfaceCulling)
            == var r := ScaledOf(a, b, c, d);
               if !PassesEdgeTest(r.0, r.1, r.2, backfaceCulling) || Det(r) == 0.0 then None
               else
                 var n := NormalizeSign(r.0, r.1, r.2, backfaceCulling);
                 var t := ScaledDistance(a, b, c, d, n.0, n.1, n.2);
                 if t < 0.0 then None else Some(NormalizedHit(n.0, n.1, n.2, t, n.3))
  {
  }

  // ---------------------------------------------------------------------
  // Soundness: the hit point is on the ray

  /** Either sign of the scaled barycentrics weighs the sheared vertices to the
      sheared ray. */
  lemma SignKeepsBalance(a: Point2, b: Point2, c: Point2, n: (real, real, real, real))
    requires var r := ScaledBarycentrics(a, b, c);
             n == (r.0, r.1, r.2, r.0 + r.1 + r.2) || n == (-r.0, -r.1, -r.2, -(r.0 + r.1 + r.2))
    ensures Weighted2(n.0, a, n.1, b, n.2, c) == Point2(0.0, 0.0)
  {
    ScaledBarycentricsWeighOrigin(a, b, c);
  }

  /** The normalised weights still balance the sheared vertices. */
  lemma NormalizedBalance(a: Point2, b: Point2, c: Point2, n: (real, real, real, real), t: real)
    requires n.0 >= 0.0 && n.1 >= 0.0 && n.2 >= 0.0 && n.3 == n.0 + n.1 + n.2 && n.3 > 0.0 && t >= 0.0
    requires Weighted2(n.0, a, n.1, b, n.2, c) == Point2(0.0, 0.0)
    ensures var h := NormalizedHit(n.0, n.1, n.2, t, n.3);
            Weighted2(h.u, a, h.v, b, h.w, c) == Point2(0.0, 0.0)
  {
    var h := NormalizedHit(n.0, n.1, n.2, t, n.3);
    var q := Weighted2(h.u, a, h.v, b, h.w, c);
    assert n.0 * a.x == h.u * n.3 * a.x && n.1 * b.x == h.v * n.3 * b.x && n.2 * c.x == h.w * n.3 * c.x;
    assert n.0 * a.y == h.u * n.3 * a.y && n.1 * b.y == h.v * n.3 * b.y && n.2 * c.y == h.w * n.3 * c.y;
    assert q.x * n.3 == 0.0 && q.y * n.3 == 0.0;
  }

  /** The normalised distance is the sheared and scaled kz coordinate of the
      point that the normalised weights give. */
  lemma NormalizedDistance(a: Vec3, b: Vec3, c: Vec3, d: Vec3, n: (real, real, real, real), t: real)
    requires d.z != 0.0
    requires n.0 >= 0.0 && n.1 >= 0.0 && n.2 >= 0.0 && n.3 == n.0 + n.1 + n.2 && n.3 > 0.0 && t >= 0.0
    requires t == ScaledDistance(a, b, c, d, n.0, n.1, n.2)
    ensures var h := NormalizedHit(n.0, n.1, n.2, t, n.3);
            h.t == ShearZ(Weighted(h.u, a, h.v, b, h.w, c), ShearOf(d))
  {
    var h := NormalizedHit(n.0, n.1, n.2, t, n.3);
    var s := ShearOf(d);
    var z := h.u * a.z + h.v * b.z + h.w * c.z;
    assert n.0 * ShearZ(a, s) == h.u * n.3 * (s.sz * a.z);
    assert n.1 * ShearZ(b, s) == h.v * n.3 * (s.sz * b.z);
    assert n.2 * ShearZ(c, s) == h.w * n.3 * (s.sz * c.z);
    assert h.t * n.3 == s.sz * z * n.3;
    assert h.t == s.sz * z;
    assert Weighted(h.u, a, h.v, b, h.w, c).z == z;
  }

  /** A vector whose sheared in-plane coordinates vanish lies on the ray, at
      the distance given by its sheared and scaled kz coordinate. */
  lemma PointOnRay(q: Vec3, t: real, d: Vec3)
    requires d.z != 0.0
    requires ShearXY(q, ShearOf(d)) == Point2(0.0, 0.0)
    requires t == ShearZ(q, ShearOf(d))
    ensures q == Scale(t, d)
  {
    var s := ShearOf(d);
    assert q.z == t * d.z;
    assert q.x == s.sx * q.z && q.y == s.sy * q.z;
  }

  /** Shearing commutes with weighing. */
  lemma ShearWeighted(k1: real, a: Vec3, k2: real, b: Vec3, k3: real, c: Vec3, s: Shear)
    ensures ShearXY(Weighted(k1, a, k2, b, k3, c), s)
            == Weighted2(k1, ShearXY(a, s), k2, ShearXY(b, s), k3, ShearXY(c, s))
  {
    var w := Weighted(k1, a, k2, b, k3, c);
    assert ShearXY(w, s).x == Weighted2(k1, ShearXY(a, s), k2, ShearXY(b, s), k3, ShearXY(c, s)).x;
    assert ShearXY(w, s).y == Weighted2(k1, ShearXY(a, s), k2, ShearXY(b, s), k3, ShearXY(c, s)).y;
  }

  /** Normalised weights that balance the sheared vertices, and the distance
      they give, put the weighted vertex on the ray. */
  lemma HitPointAlgebra(a: Vec3, b: Vec3, c: Vec3, d: Vec3, n: (real, real, real, real), t: real)
    requires d.z != 0.0
    requires Weighted2(n.0, ShearXY(a, ShearOf(d)), n.1, ShearXY(b, ShearOf(d)), n.2, ShearXY(c, ShearOf(d)))
             == Point2(0.0, 0.0)
    requires n.0 >= 0.0 && n.1 >= 0.0 && n.2 >= 0.0 && n.3 == n.0 + n.1 + n.2 && n.3 > 0.0 && t >= 0.0
    requires t == ScaledDistance(a, b, c, d, n.0, n.1, n.2)
    ensures var h := NormalizedHit(n.0, n.1, n.2, t, n.3);
            Weighted(h.u, a, h.v, b, h.w, c) == Scale(h.t, d)
  {
    var s := ShearOf(d);
    var h := NormalizedHit(n.0, n.1, n.2, t, n.3);
    NormalizedBalance(ShearXY(a, s), ShearXY(b, s), ShearXY(c, s), n, t);
    ShearWeighted(h.u, a, h.v, b, h.w, c, s);
    NormalizedDistance(a, b, c, d, n, t);
    PointOnRay(Weighted(h.u, a, h.v, b, h.w, c), h.t, d);
  }

  /** A hit in the frame lies on the ray: the vertices weighted by `u`, `v`,
      `w` make the point at distance `t` along the direction. */
  lemma FrameHitOnRay(a: Vec3, b: Vec3, c: Vec3, d: Vec3, backfaceCulling: bool)
    requires d.z != 0.0
    requires IntersectInFrame(a, b, c, d, backfaceCulling).Some?
    ensures var h := IntersectInFrame(a, b, c, d, backfaceCulling).value;
            Weighted(h.u, a, h.v, b, h.w, c) == Scale(h.t, d)
  {
    WithoutSignFlip(a, b, c, d, backfaceCulling);
    var s := ShearOf(d);
    var r := ScaledOf(a, b, c, d);
    var n := NormalizeSign(r.0, r.1, r.2, backfaceCulling);
    SignKeepsBalance(ShearXY(a, s), ShearXY(b, s), ShearXY(c, s), n);
    HitPointAlgebra(a, b, c, d, n, ScaledDistance(a, b, c, d, n.0, n.1, n.2));
  }

  // ---------------------------------------------------------------------
  // Completeness: a point of the triangle on the ray is found

  /** `k` times the weights, followed by `k`: the shape of the scaled
      barycentrics and determinant of a balanced point. */
  function Times(k: real, u: real, v: real, w: real): (real, real, real, real) {
    (u * k, v * k, w * k, k)
  }

  /** The ray shears to the origin of the plane, and its point at distance `t`
      has sheared and scaled kz coordinate `t`. */
  lemma RayShearsToOrigin(t: real, d: Vec3)
    requires d.z != 0.0
    ensures ShearXY(Scale(t, d), ShearOf(d)) == Point2(0.0, 0.0)
    ensures ShearZ(Scale(t, d), ShearOf(d)) == t
  {
    var s := ShearOf(d);
    assert s.sx * (t * d.z) == t * (d.x - (d.x - s.sx * d.z));
    assert s.sy * (t * d.z) == t * (d.y - (d.y - s.sy * d.z));
    assert s.sz * (t * d.z) == t * (s.sz * d.z);
  }

  /** The shear characterises the ray: a vector shears to the origin of the
      plane exactly when it is the point of the ray at the distance given by
      its sheared and scaled kz coordinate. */
  lemma ShearedOnRay(q: Vec3, d: Vec3)
    requires d.z != 0.0
    ensures ShearXY(q, ShearOf(d)) == Point2(0.0, 0.0) <==> q == Scale(ShearZ(q, ShearOf(d)), d)
  {
    if ShearXY(q, ShearOf(d)) == Point2(0.0, 0.0) {
      PointOnRay(q, ShearZ(q, ShearOf(d)), d);
    }
    if q == Scale(ShearZ(q, ShearOf(d)), d) {
      RayShearsToOrigin(ShearZ(q, ShearOf(d)), d);
    }
  }

  /** If weights `ka`, `kb` and `1 - ka - kb` balance the vertices `a`, `b`,
      `c` about the origin, the scaled barycentrics are the weights times the
      determinant. */
  lemma CrossesAreWeights(a: Point2, b: Point2, c: Point2, ka: real, kb: real)
    requires Weighted2(ka, a, kb, b, 1.0 - ka - kb, c) == Point2(0.0, 0.0)
    ensures var r := (Cross2(c, b), Cross2(a, c), Cross2(b, a));
            (r.0, r.1, r.2, Det(r)) == Times(Det(r), ka, kb, 1.0 - ka - kb)
  {
    var p := Weighted2(ka, a, kb, b, 1.0 - ka - kb, c);
    var u, v, w := Cross2(c, b), Cross2(a, c), Cross2(b, a);
    assert u - ka * (u + v + w) == p.x * (b.y - c.y) - p.y * (b.x - c.x);
    assert v - kb * (u + v + w) == p.x * (c.y - a.y) - p.y * (c.x - a.x);
    assert w - (1.0 - ka - kb) * (u + v + w) == p.x * (a.y - b.y) - p.y * (a.x - b.x);
    var det := Det((u, v, w));
    assert det == u + v + w;
    assert u == ka * det && v == kb * det && w == (1.0 - ka - kb) * det;
    var tm := Times(det, ka, kb, 1.0 - ka - kb);
    assert tm.0 == u;
    assert tm.1 == v;
    assert tm.2 == w;
    assert tm.3 == det;
  }

  /** If weights summing to one balance the vertices `a`, `b`, `c` about the
      origin, the scaled barycentrics are the weights times the determinant. */
  lemma BalancedCrosses(a: Point2, b: Point2, c: Point2, ka: real, kb: real, kc: real)
    requires ka + kb + kc == 1.0
    requires Weighted2(ka, a, kb, b, kc, c) == Point2(0.0, 0.0)
    ensures var r := (Cross2(c, b), Cross2(a, c), Cross2(b, a));
            (r.0, r.1, r.2, Det(r)) == Times(Det(r), ka, kb, kc)
  {
    assert kc == 1.0 - ka - kb;
    CrossesAreWeights(a, b, c, ka, kb);
  }

  /** The double-precision fallback recomputes the same values. */
  lemma ScaledBarycentricsAreCrosses(a: Point2, b: Point2, c: Point2)
    ensures ScaledBarycentrics(a, b, c) == (Cross2(c, b), Cross2(a, c), Cross2(b, a))
  {
  }

  /** Scaled barycentrics that are non-negative weights times a non-zero
      determinant (positive, under culling) pass the edge test, and
      normalising their sign leaves the weights times `|det|`. */
  lemma NormalizeWeights(r: (real, real, real), ka: real, kb: real, kc: real, backfaceCulling: bool)
    requires ka >= 0.0 && kb >= 0.0 && kc >= 0.0
    requires (r.0, r.1, r.2, Det(r)) == Times(Det(r), ka, kb, kc)
    requires Det(r) != 0.0 && (backfaceCulling ==> Det(r) > 0.0)
    ensures PassesEdgeTest(r.0, r.1, r.2, backfaceCulling)
    ensures NormalizeSign(r.0, r.1, r.2, backfaceCulling) == Times(Abs(Det(r)), ka, kb, kc)
  {
    if Det(r) > 0.0 {
      assert r.0 >= 0.0 && r.1 >= 0.0 && r.2 >= 0.0;
      assert Times(Abs(Det(r)), ka, kb, kc) == Times(Det(r), ka, kb, kc);
    } else {
      assert r.0 <= 0.0 && r.1 <= 0.0 && r.2 <= 0.0;
      assert Times(Abs(Det(r)), ka, kb, kc) == Times(-Det(r), ka, kb, kc);
    }
  }

  /** The scaled distance is linear in the weights. */
  lemma ShearZWeighted(k: real, ka: real, a: Vec3, kb: real, b: Vec3, kc: real, c: Vec3, s: Shear)
    ensures var n := Times(k, ka, kb, kc);
            n.0 * ShearZ(a, s) + n.1 * ShearZ(b, s) + n.2 * ShearZ(c, s)
            == k * ShearZ(Weighted(ka, a, kb, b, kc, c), s)
  {
    var n := Times(k, ka, kb, kc);
    assert n.0 * ShearZ(a, s) == ka * k * (s.sz * a.z);
    assert n.1 * ShearZ(b, s) == kb * k * (s.sz * b.z);
    assert n.2 * ShearZ(c, s) == kc * k * (s.sz * c.z);
    assert k * ShearZ(Weighted(ka, a, kb, b, kc, c), s) == k * (s.sz * (ka * a.z + kb * b.z + kc * c.z));
  }

  /** Weights times `k` give `k` times the distance of the point the weights
      make. */
  lemma TimesDistance(a: Vec3, b: Vec3, c: Vec3, d: Vec3, k: real, ka: real, kb: real, kc: real, t: real)
    requires d.z != 0.0
    requires Weighted(ka, a, kb, b, kc, c) == Scale(t, d)
    ensures var n := Times(k, ka, kb, kc);
            ScaledDistance(a, b, c, d, n.0, n.1, n.2) == k * t
  {
    RayShearsToOrigin(t, d);
    ShearZWeighted(k, ka, a, kb, b, kc, c, ShearOf(d));
  }

  /** Weights times a positive `k` and `k` times a distance, normalised, give
      back the weights and the distance. */
  lemma TimesNormalized(k: real, ka: real, kb: real, kc: real, t: real, dist: real)
    requires k > 0.0 && ka >= 0.0 && kb >= 0.0 && kc >= 0.0 && ka + kb + kc == 1.0 && t >= 0.0
    requires dist == k * t
    ensures dist >= 0.0
    ensures var n := Times(k, ka, kb, kc);
            NormalizedHit(n.0, n.1, n.2, dist, n.3) == Hit(ka, kb, kc, t)
  {
    var n := Times(k, ka, kb, kc);
    var h := NormalizedHit(n.0, n.1, n.2, dist, n.3);
    assert h.u * k == ka * k && h.v * k == kb * k && h.w * k == kc * k && h.t * k == t * k;
  }

  /** A point of the triangle on the ray, with a non-zero determinant (positive
      under culling), is found with its own weights and distance. */
  lemma FrameHitComplete(a: Vec3, b: Vec3, c: Vec3, d: Vec3, backfaceCulling: bool,
                         ka: real, kb: real, kc: real, t: real)
    requires d.z != 0.0
    requires ka >= 0.0 && kb >= 0.0 && kc >= 0.0 && ka + kb + kc == 1.0 && t >= 0.0
    requires Weighted(ka, a, kb, b, kc, c) == Scale(t, d)
    requires Det(ScaledOf(a, b, c, d)) != 0.0
    requires backfaceCulling ==> Det(ScaledOf(a, b, c, d)) > 0.0
    ensures IntersectInFrame(a, b, c, d, backfaceCulling) == Some(Hit(ka, kb, kc, t))
  {
    WithoutSignFlip(a, b, c, d, backfaceCulling);
    var s := ShearOf(d);
    ShearWeighted(ka, a, kb, b, kc, c, s);
    RayShearsToOrigin(t, d);
    ScaledBarycentricsAreCrosses(ShearXY(a, s), ShearXY(b, s), ShearXY(c, s));
    BalancedCrosses(ShearXY(a, s), ShearXY(b, s), ShearXY(c, s), ka, kb, kc);
    var r := ScaledOf(a, b, c, d);
    NormalizeWeights(r, ka, kb, kc, backfaceCulling);
    var k := Abs(Det(r));
    TimesDistance(a, b, c, d, k, ka, kb, kc, t);
    var n := Times(k, ka, kb, kc);
    TimesNormalized(k, ka, kb, kc, t, ScaledDistance(a, b, c, d, n.0, n.1, n.2));
  }
}
