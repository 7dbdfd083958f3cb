/** The optional-value datatype used throughout the model. */
module Wrappers {

  /** A value that may be absent: JavaScript's `null` results. */
  datatype Option<+T> = None | Some(value: T) {

    /** The value, or `default` when absent: JavaScript's `x || default`. */
    function GetOr(default: T): T {
      match this
      case Some(v) => v
      case None => default
    }
  }
}
