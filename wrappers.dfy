/** Optional and fallible values, as the pickers' nullable references and exceptions need them. */
module Wrappers {

  /** A reference that may be null. */
  datatype Option<+T> = None | Some(value: T)

  /** A computation that either yields a value or raises the named exception. */
  datatype Result<+T, +E> = Success(value: T) | Failure(error: E)
}
