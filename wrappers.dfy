/** Optional values and the outcome of a call that may raise. */
module Wrappers {

  /** A value that may be absent (Python's `None`). */
  datatype Option<+T> = None | Some(value: T) {

    /** The value, or `default` when absent (`dict.get(key, default)`). */
    function GetOr(default: T): T {
      match this
      case Some(v) => v
      case None => default
    }
  }

  /** The outcome of an external call: its value, or the message of the exception it raised. */
  datatype Result<+T> = Ok(value: T) | Failure(error: string)
}
