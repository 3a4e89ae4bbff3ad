/** Failure-compatible result types shared by the whole model. */
module Wrappers {

  /** A JavaScript value that may be `undefined`. */
  datatype Option<+T> = None | Some(value: T)

  /** The outcome of a step that may throw: `Err` carries the thrown error's message. */
  datatype Result<+T, +E> = Ok(value: T) | Err(error: E)

  /** A check that either passes or throws an error carrying a message. */
  datatype Outcome<+E> = Pass | Fail(error: E)
}
