/** The Option type shared by the modules of this project. */
module Wrappers {

  /** A value that the program may hold as `None`. */
  datatype Option<+T> = None | Some(value: T) {

    /** The value held, or `default` when there is none. */
    function GetOr(default: T): T {
      match this
      case Some(v) => v
      case None => default
    }
  }
}
