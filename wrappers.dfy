/** Option and Result values used across the model in place of Python's None and raised exceptions. */
module Wrappers {

  /** A value that may be absent (Python's `None`). */
  datatype Option<+T> = None | Some(value: T)

  /** Either a value or the error that a `raise` in the source would carry. */
  datatype Result<+T, +E> = Ok(value: T) | Err(error: E)
}
