/** Java's 64-bit signed `long`, the type of every id, amount and timestamp in the ledger. */
module Longs {

  const MIN_LONG: int := -0x8000_0000_0000_0000
  const MAX_LONG: int := 0x7FFF_FFFF_FFFF_FFFF
  const MODULUS: int := 0x1_0000_0000_0000_0000

  predicate InLongRange(x: int) {
    MIN_LONG <= x <= MAX_LONG
  }

  type long = x: int | InLongRange(x)

  /** The value Java's `+` and `-` on two longs yield for the mathematical result `x`:
      two's-complement wrap-around modulo 2^64. */
  function Wrap(x: int): (r: long)
    ensures InLongRange(x) ==> r == x
    ensures (x - r) % MODULUS == 0
    ensures InLongRange(x - MODULUS) ==> r == x - MODULUS
    ensures InLongRange(x + MODULUS) ==> r == x + MODULUS
  {
    var k := (x - MIN_LONG) / MODULUS;
    assert InLongRange(x - MODULUS) ==> k == 1;
    assert InLongRange(x + MODULUS) ==> k == -1;
    assert x - MIN_LONG == k * MODULUS + (x - MIN_LONG) % MODULUS;
    assert x - ((x - MIN_LONG) % MODULUS + MIN_LONG) == k * MODULUS;
    (x - MIN_LONG) % MODULUS + MIN_LONG
  }
}
