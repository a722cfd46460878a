/** Optional values: a Python argument or dictionary entry that may be None or absent. */
module Wrappers {

  datatype Option<+T> = None | Some(value: T)
}
