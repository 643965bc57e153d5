/** Optional values and results, in the shape the rest of the model uses. */
module Wrappers {

  /** A value that may be absent: a dictionary key that is not there, a form field not sent. */
  datatype Option<+T> = None | Some(value: T) {

    /** The value, or `default` when absent (Python's `d.get(key, default)`). */
    function GetOr(default: T): T {
      match this
      case Some(v) => v
      case None => default
    }
  }

  /** The outcome of a step that can raise. */
  datatype Result<+T, +E> = Ok(value: T) | Err(error: E)
}
