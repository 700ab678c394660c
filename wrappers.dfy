/** Optional values and provider replies that may fail. */
module Wrappers {

  /** A value that may be absent (JavaScript's `null`/`undefined`). */
  datatype Option<+T> = None | Some(value: T)

  /** The outcome of a call that may throw: the value, or the error's message. */
  datatype Result<+T, +E> = Ok(value: T) | Err(error: E)
}
