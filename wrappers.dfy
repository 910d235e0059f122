/** Option, the stock "value or nothing" wrapper used throughout the model for
    JavaScript's `undefined`/`null` and Swift's `nil`. */
module Wrappers {

  datatype Option<+T> = None | Some(value: T) {

    /** The wrapped value, or `default` when there is none. */
    function GetOr(default: T): T {
      match this
      case Some(v) => v
      case None => default
    }
  }
}
