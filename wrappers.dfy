/** Optional values: a status that may have no successor, a callback that may not be made. */
module Wrappers {
  datatype Option<+T> = None | Some(value: T)
}
