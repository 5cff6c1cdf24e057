/** The optional values the dashboard passes around: `undefined` results of `find`, a missing cookie,
    a user location that has not arrived yet. */
module Wrappers {

  datatype Option<+T> = None | Some(value: T) {

    /** The value, or `default` when there is none. */
    function GetOr(default: T): T {
      match this
      case Some(v) => v
      case None => default
    }
  }
}
