/** Failure-carrying datatypes used by the rest of the model. */
module Wrappers {

  datatype Option<+T> = None | Some(value: T)

  /** The outcome of a foreign call that can raise: a value, or the exception's message. */
  datatype Result<+R, +E> = Success(value: R) | Failure(error: E)
}
