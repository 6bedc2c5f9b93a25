/** Optional values, used wherever the engine treats a setting or a lookup as possibly absent. */
module Wrappers {
  datatype Option<T> = None | Some(value: T) {
    function GetOr(default: T): T {
      if Some? then value else default
    }
  }
}
