/** Failure-carrying result types shared by the modules of this model. */
module Wrappers {

  /** A value that may be absent (JavaScript's `null`). */
  datatype Option<+T> = None | Some(value: T)

  /** A computed value, or the error raised instead of producing it. */
  datatype Result<+T, +E> = Ok(value: T) | Err(error: E)

  /** Success without a value, or the error raised instead. */
  datatype Outcome<+E> = Pass | Fail(error: E)
}
