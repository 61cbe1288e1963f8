/** The "value or undefined" shape that every lookup of the storage layer returns. */
module Wrappers {

  /** `None` stands for JavaScript's `undefined` (or `null`, where the source treats the two alike). */
  datatype Option<+T> = None | Some(value: T) {

    /** The value, or a default when absent. */
    function GetOr(default: T): T {
      match this
      case Some(v) => v
      case None => default
    }
  }
}
