/** Optional values and the outcome of an asynchronous call that may throw. */
module Wrappers {

  datatype Option<T> = None | Some(value: T)

  /** A promise that resolved with a value or was rejected. */
  datatype Outcome<T> = Ok(value: T) | Failed
}
