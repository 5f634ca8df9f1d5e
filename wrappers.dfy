/** Optional values and results that carry an error message. */
module Wrappers {

  datatype Option<T> = None | Some(value: T)

  /** The outcome of an operation that either yields a value or fails with a message. */
  datatype Result<T> = Ok(value: T) | Err(message: string)
}
