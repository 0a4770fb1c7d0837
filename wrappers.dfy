/** Option, Result and Outcome: absent values, and the exceptions the migration throws as values. */
module Wrappers {

  datatype Option<+T> = None | Some(value: T)

  datatype Result<+R, +E> = Success(value: R) | Failure(error: E)

  /** The outcome of a PHP method that returns nothing but may throw. */
  datatype Outcome<+E> = Pass | Fail(error: E)
}
