/** Stock optional and error-carrying values. */
module Wrappers {

  datatype Option<T> = None | Some(value: T)

  /** The outcome of an operation that may stop with an error `E`. */
  datatype Result<T, E> = Ok(value: T) | Err(error: E)
}
