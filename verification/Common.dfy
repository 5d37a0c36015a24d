// Stock types shared by the models of the individual components.
module Common {
  datatype Option<+T> = None | Some(value: T)

  datatype Result<+T, +E> = Ok(value: T) | Err(error: E)

  newtype byte = x: int | 0 <= x < 256

  // A finite double-precision number is its IEEE 754 bit pattern; NaN and the infinities are the
  // patterns whose exponent is all ones.
  type Double = bits: int | 0 <= bits < 0x1_0000_0000_0000_0000 && (bits / 0x10_0000_0000_0000) % 0x800 != 0x7ff

  const ONE: Double := 0x3ff0_0000_0000_0000
  const MINUS_ZERO: Double := 0x8000_0000_0000_0000

  // 0.0 <= x <= 1.0: positive patterns are ordered like the numbers.
  predicate InUnitInterval(x: Double) {
    x <= ONE || x == MINUS_ZERO
  }
}
