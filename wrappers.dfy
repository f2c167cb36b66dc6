/** Failure-compatible wrappers used throughout the model. */
module Wrappers {

  /** A value that may be missing: an optional field, a `find` that matched nothing, a null. */
  datatype Option<+T> = None | Some(value: T)

  /** The outcome of an operation that may throw: the thrown error's message is the Failure. */
  datatype Result<+T, +E> = Success(value: T) | Failure(error: E)
}
