/** Optional values and results with an error, shared by the other modules. */
module Wrappers {

  /** A value that may be absent: an unset binding, a header `get` that returns null. */
  datatype Option<+T> = None | Some(value: T)

  /** A value, or the error a callback throws instead of returning one. */
  datatype Result<+T, +E> = Ok(value: T) | Err(error: E)
}
