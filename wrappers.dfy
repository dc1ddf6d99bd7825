/** Failure-carrying return types used in place of Go's panics and nil results. */
module Wrappers {

  datatype Option<+T> = None | Some(value: T)

  datatype Result<+R, +E> = Success(value: R) | Failure(error: E)

  /** A pass/fail result for operations that return nothing on success. */
  datatype Outcome<+E> = Pass | Fail(error: E)
}
