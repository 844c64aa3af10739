/** Optional values and results with an error, for PHP's null and thrown exceptions. */
module Wrappers {

  /** `None` models PHP's `null`. */
  datatype Option<+T> = None | Some(value: T)

  /** `Err` models an exception propagating out of a call. */
  datatype Result<+T, +E> = Ok(value: T) | Err(error: E)
}
