/** Option and Result, the two wrappers the model uses for JavaScript's
    null/undefined and for thrown errors. */
module Wrappers {

  /** A value that may be absent: `None` stands for JavaScript's `null` or `undefined`. */
  datatype Option<+T> = None | Some(value: T)

  /** The outcome of a computation that may throw: `Err` carries what was thrown. */
  datatype Result<+T, +E> = Ok(value: T) | Err(error: E)
}
