/** Option and Result, the two failure-carrying datatypes the model uses. */
module Wrappers {

  /** A value that may be absent; Python's `None` or a parse that failed. */
  datatype Option<+T> = None | Some(value: T)

  /** The outcome of an operation that may raise: a value, or the error raised. */
  datatype Result<+T, +E> = Ok(value: T) | Err(error: E)
}
