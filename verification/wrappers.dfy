/** The usual Some/None datatype, standing for a value that may be absent
    (a missing storage key, an unparsable payload, a thrown TypeError). */
module Wrappers {

  datatype Option<+T> = None | Some(value: T) {

    /** The wrapped value, or `default` when there is none. */
    function GetOr(default: T): T {
      match this
      case Some(v) => v
      case None => default
    }
  }
}
