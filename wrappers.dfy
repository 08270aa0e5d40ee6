/** Option and Result, the failure-carrying values used throughout the model. */
module Wrappers {

  datatype Option<+T> = None | Some(value: T)

  /** The outcome of a Go call returning `(value, error)` or of a JavaScript call that may throw. */
  datatype Result<+T, +E> = Ok(value: T) | Err(error: E)
}
