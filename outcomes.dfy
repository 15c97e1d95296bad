/** Option and Result values standing in for Python's None and for exceptions
    that end the run. */
module Outcomes {

  datatype Option<+T> = None | Some(value: T)

  /** Either the value a computation produced or the error it raised. */
  datatype Result<+T, +E> = Ok(value: T) | Err(error: E)
}
