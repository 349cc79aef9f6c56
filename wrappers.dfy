/** Option and Result values shared by the other modules. */
module Wrappers {

  /** A value that may be absent: `None` plays the part of Go's nil. */
  datatype Option<+T> = None | Some(value: T)

  /** The outcome of a call that can fail with an error of type E. */
  datatype Result<+R, +E> = Success(value: R) | Failure(error: E)
}
