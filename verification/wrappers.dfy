/** The absent-value type used where the script returns `null`. */
module Wrappers {

  /** `None` stands for the script's `null`; `Some(v)` for a number. */
  datatype Option<+T> = None | Some(value: T) {

    /** The wrapped value, or `default` when there is none. */
    function GetOr(default: T): T {
      match this
      case Some(v) => v
      case None => default
    }
  }
}
