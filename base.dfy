/** Small value types shared by the DVS parser and the ThinEdge JSON serializer. */
module Base {

  /** Rust's `Option<T>`. */
  datatype Option<T> = None | Some(value: T)

  /** Rust's `Result<T, E>`; `Result<(), E>` is written with Dafny's unit type `()`. */
  datatype Result<T, E> = Ok(value: T) | Err(error: E)

  /** One byte of a raw transport payload (Rust's `u8`). */
  newtype byte = b: int | 0 <= b < 0x100

  /**
   * A Rust `f64`. The model never computes with floating-point numbers: a value
   * is known only by its 64-bit IEEE-754 bit pattern, which the numeric parser
   * produces and the JSON writer consumes.
   */
  datatype F64 = F64(bits: bv64)
}
