/** Optional values: a lookup that may fail, a build that may be aborted. */
module Wrappers {
  datatype Option<T> = None | Some(value: T)
}
