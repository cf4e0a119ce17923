/** Python's `None` versus a value, and a value versus an error message. */
module Wrappers {

  datatype Option<+T> = None | Some(value: T)

  /** A value, or the message of the error that refused it. */
  datatype Result<+T> = Ok(value: T) | Err(message: string)
}
