/** Option and Result types shared by the parser and the runner. */
module Wrappers {

  datatype Option<+T> = None | Some(value: T)

  /** The value of a computation, or the exception the source would throw. */
  datatype Result<+T, +E> = Ok(value: T) | Err(error: E)
}
