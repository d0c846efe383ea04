/** Optional values and results with an error, the two shapes every module uses. */
module Wrappers {
  /** A Java reference that may be null. */
  datatype Option<T> = None | Some(value: T)

  /** The outcome of a Java call that either returns a value or throws. */
  datatype Result<T, E> = Ok(value: T) | Err(error: E)
}
