/** Failure-carrying values used wherever the Go code returns `(value, error)`. */
module Wrappers {

  datatype Option<+T> = None | Some(value: T)

  /** A value or an error message, as the Go functions return them. */
  datatype Result<+T> = Ok(value: T) | Err(error: string)
}
