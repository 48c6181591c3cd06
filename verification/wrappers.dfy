/** Option and Result types shared by every module of the model. */
module Wrappers {

  /** A value that may be absent (JavaScript's `null` / `undefined`). */
  datatype Option<+T> = None | Some(value: T)

  /** The settled state of an operation that may throw: `Success` or `Failure`. */
  datatype Result<+T, +E> = Success(value: T) | Failure(error: E)

  /** The settled state of an operation that returns nothing but may throw. */
  datatype Outcome<+E> = Pass | Fail(error: E)
}
