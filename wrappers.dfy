/** Optional values, used where the migrator tests `isset(...)` or a lookup can miss. */
module Wrappers {

  datatype Option<+T> = None | Some(value: T) {

    /** The contained value, or `default` when there is none (PHP's `isset($x) ? $x : default`). */
    function GetOr(default: T): T {
      match this
      case Some(v) => v
      case None => default
    }
  }
}
