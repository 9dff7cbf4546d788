/** Option and Result values used where the source has None or raises. */
module Wrappers {

  /** Python's `Optional[T]`: either None or a value. */
  datatype Option<+T> = None | Some(value: T)

  /** A value, or the error that escapes the caller. */
  datatype Result<+T, +E> = Ok(value: T) | Err(error: E)
}
