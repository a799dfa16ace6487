/** Small failure-compatible wrappers shared by the modules of this model. */
module Wrappers {

  /** A value that may be absent: Python's `None`, TypeScript's `null`. */
  datatype Option<+T> = None | Some(value: T)

  /** The outcome of an operation that may raise. */
  datatype Result<+T, +E> = Success(value: T) | Failure(error: E)
}
