/** Option and Result datatypes shared by every module of the model. */
module Wrappers {

  /** A value that may be absent (JavaScript `undefined`/`null`). */
  datatype Option<+T> = None | Some(value: T)

  /** The outcome of an operation that may throw: `Err` carries the error message. */
  datatype Result<+T> = Ok(value: T) | Err(message: string)

  /** The outcome of a collaborator call that returns nothing useful. */
  datatype Outcome = Succeeded | Failed(message: string)
}
