/** Option and Result datatypes used throughout the model. */
module Wrappers {

  /** A value that may be absent: an unset environment variable, a missing JSON field. */
  datatype Option<+T> = None | Some(value: T)

  /** The outcome of an operation that can fail: the returned value, or the error thrown. */
  datatype Result<+T, +E> = Success(value: T) | Failure(error: E)
}
