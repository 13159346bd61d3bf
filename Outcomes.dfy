/** Failure-carrying values shared by every module of the model. */
module Outcomes {

  /** An optional value, standing for a Go pointer or a `(value, err)` pair whose error is dropped. */
  datatype Option<+T> = None | Some(value: T)

  /** A value or an error message, standing for Go's `(value, error)` results. */
  datatype Result<+T> = Ok(value: T) | Err(msg: string)
}
