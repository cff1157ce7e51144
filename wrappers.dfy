/** Option, Result and Outcome: exceptions modelled as return values. */
module Wrappers {

  /** A value that may be absent; models a nullable shared pointer. */
  datatype Option<+T> = None | Some(value: T)

  /** Either a result or the exception raised instead of it. */
  datatype Result<+R, +E> = Success(value: R) | Failure(error: E)

  /** The outcome of a check that returns nothing but may raise. */
  datatype Outcome<+E> = Pass | Fail(error: E)
}
