/** Optional values: the outcome of parsing a numeric text field, and the
    "breakdown or nothing" state of the calculator. */
module Wrappers {

  datatype Option<+T> = None | Some(value: T) {

    /** The wrapped value, or `default` when there is none. */
    function GetOr(default: T): T {
      match this
      case Some(v) => v
      case None => default
    }
  }
}
