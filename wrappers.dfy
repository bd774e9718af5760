/** Optional values and error-carrying results shared by the modules of this model. */
module Wrappers {

  /** A value that may be absent (a JavaScript `undefined`, `null` or `false` field). */
  datatype Option<+T> = None | Some(value: T)

  /** The outcome of an operation that may throw: a value, or the error it throws. */
  datatype Result<+T, +E> = Ok(value: T) | Err(error: E)
}
