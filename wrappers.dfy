/** Option and Result datatypes shared by every module of the model. */
module Wrappers {

  /** A value that JavaScript code may leave `undefined`. */
  datatype Option<+T> = None | Some(value: T)

  /** The outcome of an operation that either returns a value or throws. */
  datatype Result<+R, +E> = Success(value: R) | Failure(error: E)
}
