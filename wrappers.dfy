/** Failure-carrying values shared by every module of the model. */
module Wrappers {

  datatype Option<+T> = None | Some(value: T)

  /** An exception thrown by the client library, identified by its message. */
  datatype Error = Error(msg: string)

  /** The value a call returns, or the exception it throws. */
  datatype Result<+T> = Success(value: T) | Failure(error: Error)

  /** The outcome of a call that returns nothing: it finishes or it throws. */
  datatype Outcome = Pass | Fail(error: Error)
}
