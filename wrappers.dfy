/** Option and Result, the two failure-carrying types used throughout the model. */
module Wrappers {

  datatype Option<+T> = None | Some(value: T)

  /** A Python call that either returns a value or raises one of the exception kinds `E`. */
  datatype Result<+T, +E> = Ok(value: T) | Err(error: E)
}
