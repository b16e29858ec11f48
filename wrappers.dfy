/** Failure-carrying values shared by the product model and the inventory store. */
module Wrappers {

  /** A value that may be absent: Python's `None` or a found object. */
  datatype Option<+T> = None | Some(value: T)

  /** The result of an operation that either yields a value or raises an error. */
  datatype Result<+R, +E> = Success(value: R) | Failure(error: E)

  /** The result of an operation that returns nothing but may raise an error. */
  datatype Outcome<+E> = Pass | Fail(error: E)
}
