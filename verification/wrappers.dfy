/** Optional values and the outcome of a step that can fail with a message. */
module Wrappers {
  datatype Option<T> = None | Some(value: T)

  /** A value, or the message of the exception that replaced it. */
  datatype Result<T> = Success(value: T) | Failure(error: string)
}
