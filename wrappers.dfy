/** Failure-compatible wrappers shared by every workflow module. */
module Wrappers {

  /** A value that may be absent: an unset key of a workflow state. */
  datatype Option<+T> = None | Some(value: T)

  /** The outcome of a step that may raise: `Err` carries the exception. */
  datatype Result<+T, +E> = Ok(value: T) | Err(error: E)
}
