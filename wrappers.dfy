/** Failure-compatible wrappers shared by the modules of this model. */
module Wrappers {

  /** A value that may be absent: JavaScript's `undefined` / `null`. */
  datatype Option<+T> = None | Some(value: T)

  /** The outcome of an operation that may throw: a value or the error it throws. */
  datatype Result<+T, +E> = Success(value: T) | Failure(error: E)
}
