/** Optional values and success-or-error results, shared by every module. */
module Wrappers {

  /** A value that may be absent: JavaScript's `null`/`undefined`. */
  datatype Option<+T> = None | Some(value: T)

  /** The outcome of an operation that either yields a value or rejects with a message. */
  datatype Result<+T> = Ok(value: T) | Err(message: string)
}
