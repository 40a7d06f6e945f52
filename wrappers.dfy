/** Optional values and results with an error, as the Go code's `(value, ok)` and `(value, error)` pairs use them. */
module Wrappers {

  datatype Option<T> = None | Some(value: T)

  datatype Result<T, E> = Ok(value: T) | Err(error: E)
}
