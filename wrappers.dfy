/** Optional values: a nil pointer, a missing file, a failed remote call. */
module Wrappers {

  datatype Option<+T> = None | Some(value: T)
}
