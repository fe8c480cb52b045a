/** Optional values and results with an error message, shared by every module. */
module Wrappers {

  datatype Option<+T> = None | Some(value: T)

  /** A value, or the message of the error that replaced it. */
  datatype Result<+T> = Ok(value: T) | Err(message: string)
}
