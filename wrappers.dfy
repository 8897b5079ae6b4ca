/** Absence and failure values shared by the other modules. */
module Wrappers {

  /** A value that may be missing: Python's `None` or an unset field. */
  datatype Option<+T> = None | Some(value: T)

  /** The outcome of an operation that either produces a value or fails with an error. */
  datatype Result<+T, +E> = Success(value: T) | Failure(error: E)
}
