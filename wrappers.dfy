/// Failure-carrying result types shared by every layer of the model.
module Wrappers {

  /** A value that may be absent (Go's nil or a missing map key). */
  datatype Option<+T> = None | Some(value: T)

  /** A value or the error that prevented it (Go's `(T, error)` pair). */
  datatype Result<+T, +E> = Success(value: T) | Failure(error: E)

  /** Success without a value, or an error (Go's lone `error` return). */
  datatype Outcome<+E> = Pass | Fail(error: E)
}
