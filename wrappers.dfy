/** Failure-compatible wrappers shared by every module of the model. */
module Wrappers {

  /** A value that may be absent: JavaScript's `undefined` or `null` where the source allows one. */
  datatype Option<+T> = None | Some(value: T)

  /** The outcome of an operation that may throw: `Failure` carries the thrown error's message. */
  datatype Result<+T, +E> = Success(value: T) | Failure(error: E)
}
