/** Optional values, used for a JSON lookup that can fail and for a camera that may be absent. */
module Wrappers {
  datatype Option<+T> = None | Some(value: T)
}
