/** Optional values and results with an error, as used throughout the model. */
module Wrappers {

  /** A value that may be absent; `None` models Python's `None`. */
  datatype Option<+T> = None | Some(value: T)

  /** The outcome of an operation that may raise: `Err` carries the raised error. */
  datatype Result<+T, +E> = Ok(value: T) | Err(error: E)
}
