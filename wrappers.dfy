/** Option and Result, the two failure-carrying shapes used across the model. */
module Wrappers {

  /** A value that may be absent: `undefined`/`null` in the source. */
  datatype Option<T> = None | Some(value: T)

  /** The outcome of an operation that may throw; `error` is the thrown message. */
  datatype Result<T> = Ok(value: T) | Err(error: string)
}
