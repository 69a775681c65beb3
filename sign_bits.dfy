/** The two bit helpers nested in the intersector, on the raw 32-bit pattern of
    an `f32` (`to_bits`/`from_bits` are the identity on the pattern here). */
module SignBits {

  /** Bit 31 of a single-precision pattern: the IEEE sign bit. */
  const SignBit: bv32 := 0x8000_0000

  /** `sign_mask`: the sign bit moved down to bit 0. */
  function SignMask(bits: bv32): (m: bv32)
    ensures m == 0 || m == 1
    ensures m == 1 <==> bits & SignBit != 0
  {
    (bits >> 31) & 1
  }

  /** `xorf`: the pattern with its sign bit toggled when bit 0 of `mask` is set. */
  function Xorf(bits: bv32, mask: bv32): (r: bv32)
    ensures r & 0x7FFF_FFFF == bits & 0x7FFF_FFFF
    ensures (r & SignBit != 0) <==> ((bits & SignBit != 0) != (mask & 1 == 1))
  {
    bits ^ (mask << 31)
  }

  /** A zero mask leaves the value alone. */
  lemma XorfZero(bits: bv32)
    ensures Xorf(bits, 0) == bits
  {
  }

  /** Flipping twice with the same mask restores the value. */
  lemma XorfInvolution(bits: bv32, mask: bv32)
    ensures Xorf(Xorf(bits, mask), mask) == bits
  {
  }

  /** The use at the end of the intersector: flipping `t` by the sign of a
      determinant whose sign bit is clear leaves `t` unchanged. */
  lemma XorfByNonNegativeSign(t: bv32, det: bv32)
    requires det & SignBit == 0
    ensures Xorf(t, SignMask(det)) == t
  {
  }
}
