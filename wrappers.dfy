/** Optional values: stands for a Java reference that may be null, and for a
    lookup that may throw. */
module Wrappers {
  datatype Option<+T> = None | Some(value: T)
}
