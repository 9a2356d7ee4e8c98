/** The optional value used wherever the Go code either yields a value or
    would index past the end of a slice (a runtime panic). */
module Wrappers {

  datatype Option<+T> = None | Some(value: T) {
    function GetOr(default: T): T {
      match this
      case Some(v) => v
      case None => default
    }
  }
}
