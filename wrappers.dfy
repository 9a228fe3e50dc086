/** The optional-value wrapper shared by the other modules. */
module Wrappers {

  /** A value that may be absent: Python's `None` on one side, a plain value on the other. */
  datatype Option<+T> = None | Some(value: T) {

    /** The value, or `default` when there is none. */
    function GetOr(default: T): T {
      match this
      case Some(v) => v
      case None => default
    }
  }
}
