/** `Option` and `Result` for Go's `(value, error)` returns and nil pointers. */
module Wrappers {

  /** A value that may be absent: a nil pointer, a failed parse. */
  datatype Option<+T> = None | Some(value: T)

  /** A Go `(value, err)` pair: exactly one of the two is meaningful. */
  datatype Result<+R, +E> = Success(value: R) | Failure(error: E)
}
