/** Failure-carrying values used in place of the exceptions the workflow raises. */
module Wrappers {

  datatype Option<+T> = None | Some(value: T)

  /** The result of an operation that returns a value or raises. */
  datatype Result<+R, +E> = Success(value: R) | Failure(error: E)

  /** The result of an operation that returns nothing or raises. */
  datatype Outcome<+E> = Pass | Fail(error: E)
}
