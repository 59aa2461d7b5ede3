/** Failure-carrying values: Go's `(value, error)` pairs become a Result,
    a nil-or-error return becomes an Option. */
module Wrappers {

  datatype Option<+T> = None | Some(value: T)

  datatype Result<+R, +E> = Success(value: R) | Failure(error: E)
}
