/** Failure-carrying values used in place of Python's exceptions. */
module Wrappers {

  datatype Option<+T> = None | Some(value: T)

  /** A computation that either produced a value or raised an error. */
  datatype Result<+T, +E> = Success(value: T) | Failure(error: E)

  /** A computation with no result of its own that either completed or raised an error. */
  datatype Outcome<+E> = Pass | Fail(error: E)
}
