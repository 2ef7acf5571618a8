/** Optional values: a driver that may be missing, a value that may be absent. */
module Wrappers {

  datatype Option<+T> = None | Some(value: T)
}
