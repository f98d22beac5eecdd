/** Small failure-carrying datatypes standing in for Go's `nil` and `(value, error)` returns. */
module Wrappers {

  /** A value that may be absent: Go's nil pointer or nil map. */
  datatype Option<+T> = None | Some(value: T)

  /** A value or the text of the error that replaced it: Go's `(T, error)` pair. */
  datatype Result<+T> = Ok(value: T) | Err(error: string)

  /** Success or the text of an error: a Go call that returns only `error`. */
  datatype Outcome = Pass | Fail(error: string)
}
