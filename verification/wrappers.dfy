/** Optional values, for Python's `None` and for outcomes that may be absent. */
module Wrappers {

  datatype Option<+T> = None | Some(value: T)
}
