/** Option, Result and Outcome: a Java reference that may be null, a call that
    returns a value or throws, and a call that returns nothing or throws. */
module Wrappers {

  datatype Option<+T> = None | Some(value: T)

  datatype Result<+T, +E> = Success(value: T) | Failure(error: E)

  datatype Outcome<+E> = Pass | Fail(error: E)
}
