/** Optional values and results with an error, as used throughout the model. */
module Wrappers {

  /** A value that may be absent; PHP's `null` is `None`. */
  datatype Option<+T> = None | Some(value: T)

  /** Either a value or the error that prevented it. */
  datatype Result<+T, +E> = Ok(value: T) | Err(error: E)
}
