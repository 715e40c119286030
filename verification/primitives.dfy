/** Fixed-width machine integers of the source, as bounded newtypes. */
module Primitives {

  newtype u8 = x: int | 0 <= x < 0x100

  newtype u16 = x: int | 0 <= x < 0x1_0000

  /** `x & 1 == 0` for a non-negative `x`. */
  predicate IsEven(x: u16) {
    x % 2 == 0
  }
}
