/** Failure-carrying values used across the model: an absent value, a value or an error. */
module Wrappers {

  datatype Option<+T> = None | Some(value: T)

  /** A value, or the error an operation raised instead. */
  datatype Result<+T, +E> = Success(value: T) | Failure(error: E)

  /** Completion without a value, or the error raised. */
  datatype Outcome<+E> = Pass | Fail(error: E)
}
