/** Wrappers shared by the other modules. */
module Wrappers {

  /** A value that may be absent: a nullable column, an optional payload field. */
  datatype Option<+T> = None | Some(value: T)

  /** What a request handler answers: `okRes` with data, or `errRes` with an error. */
  datatype Result<+T, +E> = Ok(value: T) | Err(error: E)
}
