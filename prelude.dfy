/** Value wrappers shared by every module: Rust's Option and Result, and the u8 integer type. */
module Prelude {

  /** Rust's `Option<T>`. */
  datatype Option<+T> = None | Some(value: T)

  /** Rust's `Result<T, E>`. */
  datatype Result<+T, +E> = Ok(value: T) | Err(error: E)

  /** Rust's `u8`: one byte. */
  newtype u8 = x: int | 0 <= x < 0x100
}
