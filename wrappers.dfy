/** Optional values and results with an error message, shared by every module. */
module Wrappers {

  datatype Option<+T> = None | Some(value: T)

  /** A computation that either yields a value or fails with a message (a thrown Error). */
  datatype Result<+T> = Ok(value: T) | Err(message: string)
}
