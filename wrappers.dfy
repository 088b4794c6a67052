/** Optional values, for command-line options that may or may not be given. */
module Wrappers {

  datatype Option<+T> = None | Some(value: T) {

    /** The given value, or `default` when the option was not given. */
    function GetOr(default: T): T {
      match this
      case Some(v) => v
      case None => default
    }
  }
}
