/** Failure-carrying wrappers shared by the modules of the model. */
module Wrappers {

  /** An optional value: Python's `None` or JavaScript's `undefined`/`null` is `None`. */
  datatype Option<+T> = None | Some(value: T)

  /** The value of a computation that either returns or raises with a message. */
  datatype Result<+T> = Ok(value: T) | Err(message: string)
}
