/** The optional value used throughout the model for Go's nil values and (value, error) pairs. */
module Wrappers {

  datatype Option<+T> = None | Some(value: T) {

    /** The wrapped value, or the zero value Go would leave behind. */
    function GetOr(default: T): T {
      match this
      case Some(v) => v
      case None => default
    }
  }
}
