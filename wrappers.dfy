/** Optional values and outcomes that may carry the text of a raised exception. */
module Wrappers {

  datatype Option<+T> = None | Some(value: T)

  /** The result of a call that either returns a value or raises an exception
      whose `str(e)` is `message`. */
  datatype Result<+T> = Ok(value: T) | Err(message: string)
}
