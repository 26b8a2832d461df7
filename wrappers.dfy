/** Failure-carrying values shared by the encoders. */
module Wrappers {

  datatype Option<+T> = None | Some(value: T)

  /** An encode either yields a value or fails with an error. */
  datatype Result<+T, +E> = Ok(value: T) | Err(error: E)
}
