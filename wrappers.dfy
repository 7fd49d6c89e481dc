/** Failure-compatible wrappers used throughout the model. */
module Wrappers {

  /** A value that may be absent: Java's `null` or an empty `Optional`. */
  datatype Option<+T> = None | Some(value: T)

  /** The outcome of a call that may throw: a value, or the exception's message. */
  datatype Result<+R, +E> = Success(value: R) | Failure(error: E)
}
