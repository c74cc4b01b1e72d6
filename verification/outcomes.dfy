/** Failure-carrying wrappers shared by the dashboard model. */
module Outcomes {

  /** An optional value: a cell that may be missing, a tier that may not apply. */
  datatype Option<+T> = None | Some(value: T)

  /** The outcome of a step that may raise: the value, or the exception's message. */
  datatype Result<+T> = Ok(value: T) | Err(message: string)
}
