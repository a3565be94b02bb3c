/** Option and Result, used for the source's nullable values and exceptions. */
module Wrappers {

  /** A value that may be absent: `None` stands for C#'s null. */
  datatype Option<+T> = None | Some(value: T)

  /** The outcome of an operation that may throw: `Failure` carries the exception. */
  datatype Result<+R, +E> = Success(value: R) | Failure(error: E)
}
