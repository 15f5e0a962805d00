/** Failure-compatible wrappers used across the model. */
module Wrappers {

  /** An optional value: Python's `None` or a present value. */
  datatype Option<+T> = None | Some(value: T)

  /** The outcome of an operation that can raise: the value or the error it raises. */
  datatype Result<+T, +E> = Success(value: T) | Failure(error: E)
}
