/** Failure-compatible results shared by the modules that model code which may throw. */
module Wrappers {

  datatype Option<+T> = None | Some(value: T) {
    /** The value, or the default when there is none. */
    function GetOr(default: T): T {
      match this
      case Some(v) => v
      case None => default
    }
  }

  /** The outcome of a call that either returns a value or throws. */
  datatype Outcome<+T> = Returned(value: T) | Thrown
}
