/** Option and Result, used across the model. */
module Wrappers {

  /** A value that may be absent: Python's `None` versus a present value. */
  datatype Option<+T> = None | Some(value: T)

  /** The outcome of an operation that either produces a value or is refused for a reason. */
  datatype Result<+R, +E> = Success(value: R) | Failure(error: E)
}
