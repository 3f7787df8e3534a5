/** Optional values, used for lookups that may find nothing and for decoders that may reject. */
module Wrappers {
  datatype Option<+T> = None | Some(value: T)
}
