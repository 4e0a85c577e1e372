/** Failure-carrying values for the results of external commands. */
module Wrappers {

  datatype Option<+T> = None | Some(value: T)

  /** A value, or the error text an external command reported instead. */
  datatype Result<+T> = Ok(value: T) | Err(error: string)
}
