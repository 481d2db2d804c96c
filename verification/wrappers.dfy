/** Optional values and results with an error, as used throughout the model. */
module Wrappers {

  /** A value that may be absent: JavaScript's `undefined`/`null` versus a value. */
  datatype Option<+T> = None | Some(value: T)

  /** The outcome of a step that can fail with an error value. */
  datatype Result<+T, +E> = Ok(value: T) | Err(error: E)
}
