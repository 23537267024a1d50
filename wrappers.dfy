/** Optional values, for Python results that may be `None`, and results that may be a raised error. */
module Wrappers {
  datatype Option<T> = None | Some(value: T)

  datatype Result<T, E> = Ok(value: T) | Err(error: E)

  /** A Python call that returns a value or raises. */
  datatype Outcome<T> = Returns(value: T) | Raises
}
