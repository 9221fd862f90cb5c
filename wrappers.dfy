/** Option: the value a Python function returns or `None`. */
module Wrappers {

  datatype Option<+T> = None | Some(value: T) {

    /** The value if present, or `default` otherwise (Python's `x if x is not None else d`). */
    function GetOr(default: T): T {
      match this
      case Some(v) => v
      case None => default
    }
  }
}
