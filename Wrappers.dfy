/** Failure-carrying datatypes used across the model. */
module Wrappers {

  /** A value that may be absent. */
  datatype Option<+T> = None | Some(value: T)

  /** The outcome of a step that either produces a value or raises an exception with the given text. */
  datatype Result<+T> = Success(value: T) | Failure(error: string)
}
