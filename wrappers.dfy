/** Option and Result, the two wrappers the model uses. */
module Wrappers {

  /** A value that may be absent: Python's `None` or a missing dictionary key. */
  datatype Option<+T> = None | Some(value: T) {

    /** The wrapped value, or `default` when absent (Python's `d.get(k, default)`). */
    function GetOr(default: T): T {
      match this
      case Some(v) => v
      case None => default
    }
  }

  /** The outcome of a check that either yields a value or a list of failures. */
  datatype Result<+R, +E> = Ok(value: R) | Err(error: E)
}
