/** The optional value used throughout the model: `None` stands for JavaScript's
    `undefined` or `null` where the source treats the two alike. */
module Wrappers {

  datatype Option<+T> = None | Some(value: T) {

    /** The wrapped value, or `default` when there is none. */
    function GetOr(default: T): T {
      match this
      case Some(v) => v
      case None => default
    }
  }
}
