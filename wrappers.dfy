/** Failure-compatible wrappers used across the model. */
module Wrappers {

  /** A value that may be absent (an `undefined` lookup result). */
  datatype Option<+T> = None | Some(value: T)

  /** Either a value or the error that a call threw. */
  datatype Result<+R, +E> = Success(value: R) | Failure(error: E)
}
