/** Failure-carrying values used in place of Python's None and raised exceptions. */
module Wrappers {

  /** `None` stands for Python's `None` (a missing value or an attribute not yet set). */
  datatype Option<+T> = None | Some(value: T)

  /** A call that either returns a value or raises an error. */
  datatype Result<+R, +E> = Success(value: R) | Failure(error: E)

  /** A call that returns nothing, or raises an error. */
  datatype Outcome<+E> = Pass | Fail(error: E)
}
