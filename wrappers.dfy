/** Option and result types used throughout the model. */
module Wrappers {

  /** A value that may be absent (Python's `None`). */
  datatype Option<+T> = None | Some(value: T)

  /** Either a value or the exception that the modelled code raises instead. */
  datatype Result<+T, +E> = Success(value: T) | Failure(error: E)
}
