/** Optional values: Go's nil pointers and nil slices become None. */
module Wrappers {

  datatype Option<+T> = None | Some(value: T)
}
