/** Option and Result, the two failure-carrying shapes the model needs. */
module Wrappers {

  datatype Option<+T> = None | Some(value: T)

  /** An operation's value, or the error the source would raise. */
  datatype Result<+R, +E> = Success(value: R) | Failure(error: E)
}
