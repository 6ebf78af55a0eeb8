/** Failure-compatible wrappers used for Python's `None` results and raised exceptions. */
module Wrappers {

  datatype Option<+T> = None | Some(value: T)

  /** A value, or the exception that was raised instead of returning it. */
  datatype Result<+T, +E> = Success(value: T) | Failure(error: E)

  /** Completion of a procedure that returns nothing, or the exception it raised. */
  datatype Outcome<+E> = Pass | Fail(error: E)
}
