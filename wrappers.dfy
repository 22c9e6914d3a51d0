/** Optional values, used where the Go code returns a value or nil (an error or nothing). */
module Wrappers {
  datatype Option<+T> = None | Some(value: T)
}
