/** Option and Result, for values that may be null and for calls that may throw. */
module Wrappers {

  /** A possibly-null reference: `None` stands for C#'s `null`. */
  datatype Option<+T> = None | Some(value: T)

  /** The outcome of a call that either returns a value or throws. */
  datatype Result<+T, +E> = Success(value: T) | Failure(error: E)
}
