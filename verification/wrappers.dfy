/** Failure-carrying values used across the model: Go's `(value, ok)` and `(value, error)` returns. */
module Wrappers {

  datatype Option<+T> = None | Some(value: T)

  /** A value or the text of the Go `error` that replaced it. */
  datatype Result<+T> = Success(value: T) | Failure(error: string)
}
