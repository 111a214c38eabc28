/** Failure-compatible wrappers used for the outcomes of calls into services the model cannot see. */
module Wrappers {

  /** A value that may be absent: JavaScript's `null` / `undefined` results. */
  datatype Option<+T> = None | Some(value: T)

  /** The outcome of an awaited call that may throw: its value, or the message of the error it threw. */
  datatype Result<+T> = Ok(value: T) | Err(message: string)
}
