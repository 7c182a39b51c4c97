/** Optional values: the source's `undefined`/`null` for a missing vector or matrix. */
module Wrappers {
  datatype Option<T> = None | Some(value: T)
}
