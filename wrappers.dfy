/** Optional values, used where a lookup in the mapper table may find nothing. */
module Wrappers {
  datatype Option<+T> = None | Some(value: T)
}
