/** Option and Result, the two shapes every boundary of the agent returns. */
module Wrappers {

  /** A value that may be absent: Python's `X | None`. */
  datatype Option<+T> = None | Some(value: T) {

    /** The value, or `default` when absent (Python's `x or default` for non-empty x). */
    function GetOr(default: T): T {
      match this
      case Some(v) => v
      case None => default
    }
  }

  /** Either a value or a failure: a Python call that returns or raises. */
  datatype Result<+R, +E> = Ok(value: R) | Err(error: E)
}
