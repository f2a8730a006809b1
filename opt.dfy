/** A value that may be missing: JavaScript's `null` / `undefined`. */
module Opt {

  datatype Option<+T> = None | Some(value: T) {

    /** The value, or `default` when missing (the `??` operator). */
    function GetOr(default: T): T {
      match this
      case Some(v) => v
      case None => default
    }
  }
}
