/** Optional values: a shortcut modifier flag that may be absent, a match that may not exist. */
module Wrappers {
  datatype Option<+T> = None | Some(value: T)
}
