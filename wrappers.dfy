/** Optional values, standing for Python's `Optional[...]` arguments. */
module Wrappers {

  datatype Option<+T> = None | Some(value: T)
}
