/** Optional values: a Java reference that may be null, an unset field. */
module Wrappers {
  datatype Option<T> = None | Some(value: T)
}
