/** Option and Result, the two failure-carrying datatypes the model uses. */
module Wrappers {

  /** A value that may be absent: `null` in the source. */
  datatype Option<+T> = None | Some(value: T)

  /** The outcome of a command that can fail: a resolved or a rejected promise. */
  datatype Result<+R, +E> = Success(value: R) | Failure(error: E)
}
