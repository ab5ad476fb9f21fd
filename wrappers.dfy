/** Failure-carrying results shared by the model, and the one exception kind the core raises. */
module Wrappers {

  datatype Option<+T> = None | Some(value: T)

  datatype Result<+R, +E> = Success(value: R) | Failure(error: E)

  /** Python's `ValueError`, with its message. */
  datatype Error = ValueError(message: string)
}
