/** Failure-carrying result types shared by every module of the model. */
module Wrappers {

  datatype Option<+T> = None | Some(value: T)

  /** A value, or the error the Go code returns in its place. */
  datatype Result<+R, +E> = Success(value: R) | Failure(error: E)

  /** The outcome of a Go call that returns only an `error`. */
  datatype Outcome<+E> = Pass | Fail(error: E)
}
