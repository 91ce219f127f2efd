/** Small value types shared by every module of the model. */
module Prelude {

  /** Rust's `Option<T>`: `None` is the single "no value" outcome of every query. */
  datatype Option<+T> = None | Some(value: T)

  /** Rust's `u8`: cache levels are passed and reported as unsigned 8-bit numbers. */
  type Byte = x: int | 0 <= x < 0x100
}
