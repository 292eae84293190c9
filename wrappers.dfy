/** Optional values: a `find` that may come back empty, an accordion index that may be null. */
module Wrappers {
  datatype Option<+T> = None | Some(value: T)
}
