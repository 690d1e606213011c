/** Failure-carrying datatypes shared by the modules of this model. */
module Wrappers {

  /** A value that may be absent: a JavaScript `null` / `undefined`. */
  datatype Option<+T> = None | Some(value: T)

  /** The outcome of an operation that may throw an error with a message. */
  datatype Result<+T> = Success(value: T) | Failure(error: string)
}
