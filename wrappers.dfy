/** Option and Result, the two wrappers the rest of the model returns. */
module Wrappers {

  datatype Option<+T> = None | Some(value: T)

  /** The outcome of an operation that may raise: `Err` carries which exception. */
  datatype Result<+T, +E> = Ok(value: T) | Err(error: E)
}
