/** Failure-carrying result types shared by the other modules. */
module Wrappers {

  datatype Option<+T> = None | Some(value: T)

  /** Either a value or the error a Go function returns beside its zero value. */
  datatype Result<+R, +E> = Success(value: R) | Failure(error: E)
}
