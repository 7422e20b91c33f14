/** Failure-carrying datatypes shared by the two components. */
module Wrappers {

  /** A value that may be absent (Python's None, JavaScript's null). */
  datatype Option<+T> = None | Some(value: T)

  /** The outcome of an endpoint: a value, or the error it raises. */
  datatype Result<+T, +E> = Ok(value: T) | Err(error: E)
}
