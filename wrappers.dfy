/** Optional values and results with an error message. */
module Wrappers {

  /** A value that may be missing: Python's `None` where a string or key may be absent. */
  datatype Option<+T> = None | Some(value: T)

  /** The outcome of a step that the source can abandon by raising an exception. */
  datatype Result<+T> = Ok(value: T) | Err(message: string)
}
