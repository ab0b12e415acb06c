/** Optional values: a JSON key that may be absent, a reply that may be missing. */
module Wrappers {
  datatype Option<+T> = None | Some(value: T)
}
