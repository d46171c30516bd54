/** Option and Result types used across the model. */
module Wrappers {

  /** A value that may be absent: a dictionary lookup or an optional attribute. */
  datatype Option<+T> = None | Some(value: T)

  /** The outcome of an operation that raises an exception in the source. */
  datatype Result<+T, +E> = Ok(value: T) | Err(error: E)
}
