/** Option and Result values for the error paths of the audio classifier model. */
module Wrappers {

  /** A value that may be absent: a JavaScript `null`/`undefined`, or a decode that failed. */
  datatype Option<+T> = None | Some(value: T)

  /** The outcome of an operation that may throw: its value, or the error it throws. */
  datatype Result<+R, +E> = Success(value: R) | Failure(error: E)
}
