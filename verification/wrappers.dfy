/** Failure-carrying wrappers used throughout the model. */
module Wrappers {

  /** A value that may be absent (Python's `Optional`). */
  datatype Option<+T> = None | Some(value: T)

  /** Either a value or the detail text of the exception that was raised instead. */
  datatype Result<+T> = Ok(value: T) | Err(detail: string)

  /** The outcome of an effect that returns nothing but may raise. */
  datatype Outcome = Pass | Fail(detail: string)
}
