/** Optional values: JavaScript's `undefined` (and `null` where the source tests for it). */
module Wrappers {

  datatype Option<+T> = None | Some(value: T) {

    /** The value, or `default` when there is none: JavaScript's `x || default`
        for the fields this model reads, whose falsy values equal their defaults. */
    function GetOr(default: T): T {
      match this
      case Some(v) => v
      case None => default
    }
  }
}
