/** Failure-carrying values used in place of Python's None and exceptions. */
module Wrappers {

  /** Python's `Optional[T]`: `None` or a present value. */
  datatype Option<+T> = None | Some(value: T)

  /** A call that either returns a value or raises an exception with a message. */
  datatype Result<+T, +E> = Success(value: T) | Failure(error: E)

  /** A call that returns nothing, or raises an exception with a message. */
  datatype Outcome<+E> = Pass | Fail(error: E)
}
