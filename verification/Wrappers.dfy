/** Optional values: a nil pointer, or a lookup that may miss. */
module Wrappers {
  datatype Option<+T> = None | Some(value: T) {
    function GetOr(default: T): T {
      if Some? then value else default
    }
  }
}
