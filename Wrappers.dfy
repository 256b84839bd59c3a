/** Optional values and results with an error case, shared by the other modules. */
module Wrappers {

  /** A value that may be absent, as Swift's `T?`. */
  datatype Option<+T> = None | Some(value: T)

  /** The outcome of an operation that can fail at run time. */
  datatype Result<+T, +E> = Ok(value: T) | Err(error: E)
}
