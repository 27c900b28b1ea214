/** Optional values, for the source's `T | null` and optional properties. */
module Wrappers {

  datatype Option<+T> = None | Some(value: T)
}
