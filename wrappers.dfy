/** Option and Result, the two failure-carrying values the model returns. */
module Wrappers {

  /** A value that may be absent; Python's `Optional[...]` and `None`. */
  datatype Option<+T> = None | Some(value: T)

  /** A returned value or a raised exception. */
  datatype Result<+R, +E> = Ok(value: R) | Err(error: E)
}
