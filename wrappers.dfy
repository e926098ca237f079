/** Optional values and success-or-error results, standing for JavaScript's
    `null`-or-value and for an exception thrown by a mocked remote call. */
module Wrappers {
  datatype Option<T> = None | Some(value: T)

  datatype Result<T, E> = Ok(value: T) | Err(error: E)
}
