/** Option and Result values used for the error paths of the model. */
module Wrappers {

  datatype Option<+T> = None | Some(value: T)

  datatype Result<+T, +E> = Success(value: T) | Failure(error: E)

  /** A result that carries no value: the operation either passed or raised. */
  datatype Outcome<+E> = Pass | Fail(error: E)
}
