/** Kotlin `Long` arithmetic: 64-bit two's complement with silent wrap-around. */
module Int64 {

  const TWO_64: int := 0x1_0000_0000_0000_0000
  const MIN_LONG: int := -0x8000_0000_0000_0000
  const MAX_LONG: int := 0x7FFF_FFFF_FFFF_FFFF

  type Long = x: int | -0x8000_0000_0000_0000 <= x <= 0x7FFF_FFFF_FFFF_FFFF

  /** A reading of `System.currentTimeMillis()`: never negative. */
  type Millis = x: int | 0 <= x <= 0x7FFF_FFFF_FFFF_FFFF

  predicate InLongRange(x: int) {
    MIN_LONG <= x <= MAX_LONG
  }

  /** The `Long` that a JVM addition or multiplication yields for the exact value `x`. */
  function Wrap(x: int): (r: Long)
    ensures InLongRange(x) ==> r == x
    ensures (x - r) % TWO_64 == 0
  {
    (x - MIN_LONG) % TWO_64 + MIN_LONG
  }
}
