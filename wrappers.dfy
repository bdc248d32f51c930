/** Option and Result, used for JSON `null` and for failed HTTP requests. */
module Wrappers {

  /** A JSON value that may be `null`. */
  datatype Option<+T> = None | Some(value: T)

  /** The outcome of a request or of a whole collection run. */
  datatype Result<+T, +E> = Ok(value: T) | Err(error: E)
}
