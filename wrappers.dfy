/** Optional values: what stands in for a C reference that may be NULL. */
module Wrappers {

  datatype Option<+T> = None | Some(value: T)
}
