/** Optional values: `None` stands for JavaScript's `null`/`undefined`
    (an absent option key, an empty timer slot, no recorded overlay). */
module Wrappers {

  datatype Option<+T> = None | Some(value: T) {

    /** The value when there is one, `default` otherwise. */
    function GetOr(default: T): T {
      match this
      case Some(v) => v
      case None => default
    }
  }
}
