/** Small value types shared by every module of the model. */
module Basics {

  /** An optional value, as Rust's `Option`. */
  datatype Option<+T> = None | Some(value: T)

  /** A value or an error, as Rust's `Result` (the error messages of the
      program are replaced by error enums). */
  datatype Result<+T, +E> = Ok(value: T) | Err(error: E)

  /** Rust's `u16`. */
  type U16 = x: int | 0 <= x < 0x1_0000

  const U16Max: nat := 0xFFFF
  const U64Max: nat := 0xFFFF_FFFF_FFFF_FFFF

  /** Rust's `saturating_sub` on unsigned integers. */
  function SatSub(a: nat, b: nat): nat
  {
    if a >= b then a - b else 0
  }
}
