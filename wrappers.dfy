/** Option and Result values shared by every module of the model. */
module Wrappers {

  datatype Option<+T> = None | Some(value: T)

  /** The outcome of a fallible operation of the source: a value, an error
      handed back to the caller (`Err`, Rust's `Result::Err`), or a panic
      (`unwrap`, `expect`, `todo!`, a failing `debug_assert!`, or an
      overflowing `usize` subtraction, all taken as in a debug build). */
  datatype Result<+T, +E> = Ok(value: T) | Err(error: E) | Panic(reason: string)
}
