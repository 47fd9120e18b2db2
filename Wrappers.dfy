/** The Option datatype shared by the modules of this model. */
module Wrappers {

  /** A value that may be absent: a missing storage key, a JavaScript `NaN`,
      a `null` accumulator. */
  datatype Option<T> = None | Some(value: T) {

    /** The value, or `default` when there is none. */
    function GetOr(default: T): T {
      match this
      case Some(v) => v
      case None => default
    }
  }
}
