/** Result types shared by every component. */
module Outcomes {
  datatype Option<+T> = None | Some(value: T)

  /** A value, or the exception that the source raises instead. */
  datatype Result<+T, +E> = Ok(value: T) | Err(error: E)
}
