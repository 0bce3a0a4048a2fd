/** Failure-carrying datatypes shared by the model: an optional value and a
    success-or-error result standing for a Python return or a raised exception. */
module Wrappers {

  /** A value that may be absent (Python's `None`). */
  datatype Option<+T> = None | Some(value: T)

  /** Either a returned value or a raised error. */
  datatype Result<+R, +E> = Success(value: R) | Failure(error: E)
}
