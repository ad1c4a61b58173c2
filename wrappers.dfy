/** Optional values: the model's stand-in for Go's nil pointers and nil errors. */
module Wrappers {
  datatype Option<+T> = None | Some(value: T)
}
