/** Option and Result, the failure-carrying values used throughout the model. */
module Wrappers {

  /** A value that may be absent: JavaScript's `undefined` or `null`. */
  datatype Option<+T> = None | Some(value: T)

  /** The outcome of an operation that can throw: the value, or the error it throws. */
  datatype Result<+T, +E> = Success(value: T) | Failure(error: E)
}
