/** Integer widths of the target: `int` has 32 bits and two's complement. */
module Machine {
  const TWO_31 := 0x8000_0000
  const TWO_32 := 0x1_0000_0000
  const TWO_63 := 0x8000_0000_0000_0000
  const TWO_64 := 0x1_0000_0000_0000_0000

  /** Signed 32-bit wrap-around. */
  function Wrap32(x: int): (w: int)
    ensures -TWO_31 <= w < TWO_31
    ensures -TWO_31 <= x < TWO_31 ==> w == x
  {
    (x + TWO_31) % TWO_32 - TWO_31
  }

  /** What 32 bits hold of a number: it differs by a multiple of 2^32. */
  lemma WrapExact(x: int)
    ensures -0x8000_0000 <= Wrap32(x) < 0x8000_0000 && (x - Wrap32(x)) % 0x1_0000_0000 == 0
  {
  }
}
