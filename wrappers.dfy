/** Option and Result, the failure-carrying values the other modules return
    where the Go code returns a nil pointer or a non-nil error. */
module Wrappers {

  datatype Option<+T> = None | Some(value: T)

  datatype Result<+R, +E> = Success(value: R) | Failure(error: E)
}
