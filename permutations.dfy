/** Axis permutations (kx, ky, kz) of a 3-vector and their parity. */
module Permutations {
  import opened Vectors

  /** The axes of the ray's frame: kz is the dominant axis, kx and ky span the
      plane that the triangle is projected onto. */
  datatype Axes = Axes(kx: nat, ky: nat, kz: nat)

  predicate IsPermutation(p: Axes) {
    p.kx < 3 && p.ky < 3 && p.kz < 3 && p.kx != p.ky && p.ky != p.kz && p.kx != p.kz
  }

  /** The cyclic rotations of (0, 1, 2): those that keep the orientation of space. */
  predicate IsEven(p: Axes) {
    p == Axes(0, 1, 2) || p == Axes(1, 2, 0) || p == Axes(2, 0, 1)
  }

  /** `v` seen in the frame `p`: its kx, ky and kz components. */
  function Permute(v: Vec3, p: Axes): Vec3
    requires IsPermutation(p)
  {
    Vec3(v.At(p.kx), v.At(p.ky), v.At(p.kz))
  }

  /** Every axis is one of kx, ky, kz. */
  lemma Covers(p: Axes, i: nat)
    requires IsPermutation(p) && i < 3
    ensures i == p.kx || i == p.ky || i == p.kz
  {
  }

  /** A vector is determined by its components in any frame. */
  lemma PermuteInjective(a: Vec3, b: Vec3, p: Axes)
    requires IsPermutation(p)
    requires Permute(a, p) == Permute(b, p)
    ensures a == b
  {
    forall i: nat | i < 3
      ensures a.At(i) == b.At(i)
    {
      Covers(p, i);
    }
    ExtensionalAt(a, b);
  }

  /** Relabelling the axes does not change a dot product. */
  lemma PermuteDot(a: Vec3, b: Vec3, p: Axes)
    requires IsPermutation(p)
    ensures Dot(Permute(a, p), Permute(b, p)) == Dot(a, b)
  {
  }

  /** Relabelling the axes commutes with the cross product for an even
      permutation and negates it for an odd one. */
  lemma PermuteCross(a: Vec3, b: Vec3, p: Axes)
    requires IsPermutation(p)
    ensures Cross(Permute(a, p), Permute(b, p))
            == if IsEven(p) then Permute(Cross(a, b), p) else Scale(-1.0, Permute(Cross(a, b), p))
  {
  }

  /** Relabelling the axes commutes with the linear operations. */
  lemma PermuteSub(a: Vec3, b: Vec3, p: Axes)
    requires IsPermutation(p)
    ensures Permute(Sub(a, b), p) == Sub(Permute(a, p), Permute(b, p))
  {
    AtOps(p.kx, a, b, 0.0);
    AtOps(p.ky, a, b, 0.0);
    AtOps(p.kz, a, b, 0.0);
  }

  lemma PermuteAdd(a: Vec3, b: Vec3, p: Axes)
    requires IsPermutation(p)
    ensures Permute(Add(a, b), p) == Add(Permute(a, p), Permute(b, p))
  {
    AtOps(p.kx, a, b, 0.0);
    AtOps(p.ky, a, b, 0.0);
    AtOps(p.kz, a, b, 0.0);
  }

  lemma PermuteScale(k: real, a: Vec3, p: Axes)
    requires IsPermutation(p)
    ensures Permute(Scale(k, a), p) == Scale(k, Permute(a, p))
  {
    AtOps(p.kx, a, a, k);
    AtOps(p.ky, a, a, k);
    AtOps(p.kz, a, a, k);
  }

  lemma PermuteWeighted(a: real, q: Vec3, b: real, q': Vec3, c: real, q'': Vec3, p: Axes)
    requires IsPermutation(p)
    ensures Permute(Weighted(a, q, b, q', c, q''), p)
            == Weighted(a, Permute(q, p), b, Permute(q', p), c, Permute(q'', p))
  {
    PermuteScale(a, q, p);
    PermuteScale(b, q', p);
    PermuteScale(c, q'', p);
    PermuteAdd(Scale(a, q), Scale(b, q'), p);
    PermuteAdd(Add(Scale(a, q), Scale(b, q')), Scale(c, q''), p);
  }
}
