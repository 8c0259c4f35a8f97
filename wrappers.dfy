/** Option and Result values shared by the other modules. */
module Wrappers {

  datatype Option<+T> = None | Some(value: T)

  /** The outcome of an operation that the source reports through an `error` return. */
  datatype Result<+T, +E> = Ok(value: T) | Err(error: E)
}
