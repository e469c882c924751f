/** Option and Result, the two failure-carrying shapes the model uses. */
module Wrappers {

  /** A value that may be PHP's `null`. */
  datatype Option<+T> = None | Some(value: T)

  /** The outcome of an operation that may throw. */
  datatype Result<+T, +E> = Ok(value: T) | Err(error: E)
}
