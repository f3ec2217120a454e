/** Option, used wherever the source returns a value or None, and the two readings of
    the functions where the source has a defect. */
module Wrappers {

  /** The program as written, or with the corrections recorded as findings. */
  datatype Revision = AsWritten | Corrected

  datatype Option<+T> = None | Some(value: T) {

    /** The wrapped value, or `default` when there is none (Python's `x or default`
        for values whose only falsy case is None). */
    function GetOr(default: T): T {
      match this
      case Some(v) => v
      case None => default
    }
  }
}
