/** The Option type used for values that may be absent: an order list that
    has not been read yet, or an amount whose numeric conversion failed. */
module Wrappers {

  datatype Option<+T> = None | Some(value: T) {

    /** The wrapped value, or `default` when there is none. */
    function GetOr(default: T): T {
      match this
      case Some(v) => v
      case None => default
    }
  }
}
