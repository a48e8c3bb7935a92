/** Failure-carrying results shared by the solver modules. */
module Wrappers {

  /** A value that may be absent; `None` stands for the `null` the solver returns. */
  datatype Option<+T> = None | Some(value: T)

  /** Either a value or the reason it could not be produced (an exception in the solver). */
  datatype Result<+T, +E> = Ok(value: T) | Err(error: E)
}
