/** Failure-carrying values used across the model for Python's `None` and raised exceptions. */
module Wrappers {

  /** Python's `Optional[T]`: `None` or a present value. */
  datatype Option<T> = None | Some(value: T)

  /** An operation that either returns a value or raises; the error carries the exception message. */
  datatype Result<T> = Ok(value: T) | Err(error: string)
}
