/** Option and Result: Python's None and raised exceptions, made explicit. */
module Wrappers {

  /** A value that may be absent (Python's `None`). */
  datatype Option<+T> = None | Some(value: T)

  /** A value, or the message of the exception raised instead. */
  datatype Result<+R, +E> = Success(value: R) | Failure(error: E)
}
