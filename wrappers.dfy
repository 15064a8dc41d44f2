/** The optional value used wherever the source has a field that may be
    undefined (or, for JavaScript's `||`, a falsy value treated as absent). */
module Wrappers {

  datatype Option<+T> = None | Some(value: T) {

    /** The value, or `default` when there is none. */
    function GetOr(default: T): T {
      match this
      case Some(v) => v
      case None => default
    }
  }
}
