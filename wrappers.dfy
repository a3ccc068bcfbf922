/** Option and Result values for the error paths of the Go code (a Go
    `(value, error)` pair becomes a Result). */
module Wrappers {

  datatype Option<+T> = None | Some(value: T)

  datatype Result<+T, +E> = Success(value: T) | Failure(error: E)
}
