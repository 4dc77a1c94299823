/** Failure-carrying values shared by the whole model. */
module Wrappers {

  /** A value that may be absent (Python's None, Go's nil). */
  datatype Option<+T> = None | Some(value: T)

  /** The outcome of an operation that may fail with an error value. */
  datatype Result<+T, +E> = Ok(value: T) | Err(error: E)
}
