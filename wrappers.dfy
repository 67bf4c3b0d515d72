/** Option, Result and Outcome values shared by the modules of this model. */
module Wrappers {

  datatype Option<+T> = None | Some(value: T)

  /** The outcome of an operation that produces a value or fails with an error of type E. */
  datatype Result<+T, +E> = Success(value: T) | Failure(error: E)

  /** The outcome of an operation that produces nothing or fails with an error of type E. */
  datatype Outcome<+E> = Pass | Fail(error: E)
}
