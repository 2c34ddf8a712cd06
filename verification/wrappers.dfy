/** Option and Result types shared by the rest of the model. */
module Wrappers {

  /** A value that may be absent: a failed parse, a missing index. */
  datatype Option<+T> = None | Some(value: T)

  /** The outcome of an operation that can raise: a value or the error it raised. */
  datatype Result<+R, +E> = Success(value: R) | Failure(error: E)
}
