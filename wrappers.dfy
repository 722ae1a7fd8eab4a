/** Optional and fallible values shared by the modules of this model. */
module Wrappers {

  /** A value that may be absent (JavaScript's undefined or a falsy field). */
  datatype Option<+T> = None | Some(value: T)

  /** A computation that either yields a value or fails with an error. */
  datatype Result<+T, +E> = Ok(value: T) | Err(error: E)
}
