/** Option and Result, used for the nullable values and the `(value, error)` returns of the system. */
module Wrappers {

  /** A value that may be absent: Go's nil pointer, TypeScript's `null`/`undefined`. */
  datatype Option<+T> = None | Some(value: T)

  /** The `(value, err)` pair of a Go function: exactly one of the two is meaningful. */
  datatype Result<+T, +E> = Ok(value: T) | Err(error: E)
}
