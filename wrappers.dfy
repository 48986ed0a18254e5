/** Optional values and results with an error, as used by the rest of the model. */
module Wrappers {

  /** A key that may be absent from a dictionary. */
  datatype Option<+T> = None | Some(value: T)

  /** The value of a call, or the exception it raises. */
  datatype Result<+T, +E> = Ok(value: T) | Err(error: E)
}
