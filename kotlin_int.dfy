/** The Kotlin `Int` the client cards store, and the bit operations on it
    that they use, written arithmetically. For a two's-complement integer
    `v`, `v and (2^k - 1)` is `v % 2^k` (with a non-negative remainder), bit
    `k` is set exactly when `v % 2^(k+1) >= 2^k`, and `v shr 2` is `v / 4`
    rounded down. */
module KotlinInt {
  type Int32 = v: int | -0x8000_0000 <= v < 0x8000_0000

  /** `v and 0b1000_0000 != 0`. In a byte it is the top bit, and every
      negative byte value has it. */
  predicate Bit7(v: int)
    ensures 0 <= v < 256 ==> (Bit7(v) <==> v >= 128)
    ensures -128 <= v < 0 ==> Bit7(v)
  {
    v % 256 >= 128
  }

  /** `v xor 0b1000_0000`: bit 7 toggled, every other bit kept. */
  function Xor0x80(v: Int32): (r: Int32)
    ensures Bit7(r) <==> !Bit7(v)
    ensures r / 256 == v / 256
    ensures r % 256 == if Bit7(v) then v % 256 - 128 else v % 256 + 128
  {
    var r := if Bit7(v) then v - 128 else v + 128;
    DivModOf(r, v / 256, if Bit7(v) then v % 256 - 128 else v % 256 + 128);
    r
  }

  /** Quotient and remainder by 256 are determined by any decomposition
      with a remainder in range. */
  lemma DivModOf(v: int, q: int, m: int)
    requires v == 256 * q + m && 0 <= m < 256
    ensures v / 256 == q && v % 256 == m
  {
  }

  /** Toggling bit 7 twice gives the value back. */
  lemma XorInvolution(v: Int32)
    ensures Xor0x80(Xor0x80(v)) == v
  {
  }

  /** `v ushr 2`: a logical shift, so a negative value is first read as
      its unsigned 32-bit pattern. */
  function Ushr2(v: Int32): (r: int)
    ensures 0 <= r < 0x4000_0000
    ensures v >= 0 ==> r == v / 4
  {
    (v % 0x1_0000_0000) / 4
  }
}
