/** Failure-carrying datatypes shared by every module of the model. */
module Wrappers {

  datatype Option<+T> = None | Some(value: T)

  datatype Result<+T, +E> = Success(value: T) | Failure(error: E)

  /** The outcome of a check that has no value to return: it passes or fails with an error. */
  datatype Outcome<+E> = Pass | Fail(error: E)
}
