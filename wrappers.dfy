/** Optional values, for timestamps that may be unset and lookups that may find nothing. */
module Wrappers {
  datatype Option<+T> = None | Some(value: T)
}
