/** Option and Result, the failure-carrying values used throughout the model. */
module Wrappers {

  /** A value that may be absent (Python's `None` or a missing attribute/key). */
  datatype Option<+T> = None | Some(value: T)

  /** Either a normal return value or the exception the Python code raises. */
  datatype Result<+T, +E> = Ok(value: T) | Err(error: E)
}
