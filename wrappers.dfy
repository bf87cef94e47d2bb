/** Failure-compatible wrappers shared by the other modules. */
module Wrappers {

  /** A value that may be absent; `None` stands for JavaScript's `false`, `null` or `undefined`. */
  datatype Option<+T> = None | Some(value: T)

  /** The outcome of an operation that may throw. */
  datatype Result<+R, +E> = Success(value: R) | Failure(error: E)
}
