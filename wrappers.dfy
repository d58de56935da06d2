/** Optional values, standing for Python's `None` and for optional configuration fields. */
module Wrappers {

  datatype Option<T> = None | Some(value: T) {

    /** The value if present, otherwise `default` (Python's `dict.get(key, default)`). */
    function GetOr(default: T): T {
      if Some? then value else default
    }
  }
}
