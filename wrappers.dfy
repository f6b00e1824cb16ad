/** Failure-compatible result types shared by the modules of this model. */
module Wrappers {

  /** A value that may be absent: JavaScript's `null`/`undefined`. */
  datatype Option<+T> = None | Some(value: T)

  /** The outcome of an operation that either returns a value or throws an error message. */
  datatype Result<+R, +E> = Success(value: R) | Failure(error: E)
}
