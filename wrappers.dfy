/** Optional values, for an absent IP address or a probe that threw. */
module Wrappers {
  datatype Option<+T> = None | Some(value: T)
}
