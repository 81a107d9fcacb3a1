/** Failure-compatible wrappers used throughout the model. */
module Wrappers {

  /** An optional value: a nullable slot of a column, or a missing position. */
  datatype Option<+T> = None | Some(value: T)

  /** The outcome of an operation that may abort with an internal error. */
  datatype Result<+R, +E> = Success(value: R) | Failure(error: E)
}
