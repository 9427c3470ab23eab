/** Optional values, used for "emits at most one event" and for a missing options document. */
module Wrappers {
  datatype Option<+T> = None | Some(value: T)
}
