/** Option and Result values, used where the Go code returns a value or an error. */
module Wrappers {

  datatype Option<T> = None | Some(value: T)

  /** A Go `(value, error)` pair where exactly one of the two is meaningful. */
  datatype Result<T, E> = Success(value: T) | Failure(error: E)
}
