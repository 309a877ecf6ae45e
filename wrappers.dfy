/** Failure-carrying values shared by the other modules. */
module Wrappers {

  /** A value that may be absent; stands for a nullable pointer. */
  datatype Option<+T> = None | Some(value: T)

  /** Either a computed value or the error code that stopped the computation. */
  datatype Result<+T, +E> = Ok(value: T) | Err(error: E)
}
