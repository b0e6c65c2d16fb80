/** Option, Result and Outcome values: how the model carries "absent" and a raised error. */
module Wrappers {

  /** A value that may be absent (JavaScript's `undefined` / `null`). */
  datatype Option<+T> = None | Some(value: T)

  /** The value a call produced, or the message of the error it raised. */
  datatype Result<+T> = Success(value: T) | Failure(error: string)

  /** A call that returns nothing: it completed, or raised an error with a message. */
  datatype Outcome = Pass | Fail(error: string)
}
