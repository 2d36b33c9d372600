/** Optional values and fallible results, as the engine returns them. */
module Wrappers {

  datatype Option<T> = None | Some(value: T)

  /** A computation that either succeeds or fails with a message. */
  datatype Result<T> = Ok(value: T) | Err(error: string)
}
