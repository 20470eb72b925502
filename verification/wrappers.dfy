/** Optional values and results with an error, shared by the mail relay model. */
module Wrappers {

  /** A value that may be missing; `None` stands for JavaScript `undefined`. */
  datatype Option<+T> = None | Some(value: T)

  /** The outcome of a step that may throw: `Err` carries the thrown error's message. */
  datatype Result<+T, +E> = Ok(value: T) | Err(error: E)
}
