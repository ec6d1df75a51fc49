/** Optional values: an absent request header is `None`. */
module Wrappers {
  datatype Option<+T> = None | Some(value: T)
}
