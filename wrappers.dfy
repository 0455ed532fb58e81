/** The `undefined`-or-value shape that optional fields, `Map.get` and `Array.find` share. */
module Wrappers {

  /** `None` stands for JavaScript's `undefined` (and, for nullable columns, `null`). */
  datatype Option<+T> = None | Some(value: T) {

    /** The value, or `default` when there is none. */
    function GetOr(default: T): T {
      match this
      case Some(v) => v
      case None => default
    }
  }
}
