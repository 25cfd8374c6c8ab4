/** Optional values (Python's `Optional[...]` / `None`). */
module Wrappers {

  datatype Option<+T> = None | Some(value: T) {

    /** `x or default` for an optional field that is either absent or set. */
    function GetOr(default: T): (r: T)
      ensures Some? ==> r == value
      ensures None? ==> r == default
    {
      match this
      case Some(v) => v
      case None => default
    }
  }
}
