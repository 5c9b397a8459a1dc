/** The C integer conversions the plugin relies on, written out over unbounded integers. */
module CInts {

  /** 2^32: the number of values of the plugin's 32-bit `int` fields. */
  const INT_MODULUS: int := 0x1_0000_0000
  const INT_MIN: int := -0x8000_0000
  const INT_MAX: int := 0x7fff_ffff

  /** 2^64: the number of values of a 64-bit `size_t`. */
  const SIZE_MODULUS: int := 0x1_0000_0000_0000_0000

  /**
   * Storing a 64-bit method-channel integer into an `int` field keeps its low
   * 32 bits, read back in two's complement.
   */
  function ToCInt(v: int): (r: int)
    ensures INT_MIN <= r <= INT_MAX
    ensures (r - v) % INT_MODULUS == 0
    ensures INT_MIN <= v <= INT_MAX ==> r == v
  {
    (v - INT_MIN) % INT_MODULUS + INT_MIN
  }

  /**
   * The comparison `n <= t` of a `size_t` n with an `int` t: the usual
   * arithmetic conversions turn t into a `size_t` first, so a negative t
   * becomes 2^64 + t and (for any realistic n) the comparison holds.
   */
  function SizeAtMostInt(n: nat, t: int): (r: bool)
    ensures 0 <= t < SIZE_MODULUS ==> (r <==> n <= t)
    ensures -SIZE_MODULUS <= t < 0 ==> (r <==> n <= SIZE_MODULUS + t)
    ensures INT_MIN <= t < 0 && n <= SIZE_MODULUS / 2 ==> r
  {
    n <= t % SIZE_MODULUS
  }
}
