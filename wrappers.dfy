/** Option and Result, the shapes the Go code expresses with nil and (value, error) pairs. */
module Wrappers {

  datatype Option<+T> = None | Some(value: T)

  /** A Go `(T, error)` pair: either a value, or the error's `Error()` text. */
  datatype Result<+T> = Ok(value: T) | Err(error: string)
}
