/** Optional values, used for nullable callbacks and optional members. */
module Wrappers {
  datatype Option<T> = None | Some(value: T)
}
