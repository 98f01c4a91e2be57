/** Failure-compatible result types shared by the models. */
module Wrappers {

  /** A value that may be absent (Python's `None`). */
  datatype Option<+T> = None | Some(value: T)

  /** The outcome of an operation that may raise an error instead of returning. */
  datatype Result<+T, +E> = Success(value: T) | Failure(error: E)
}
