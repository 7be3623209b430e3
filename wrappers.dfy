/** Optional values: a missing value, or the Python `None` of an optional argument. */
module Wrappers {

  datatype Option<+T> = None | Some(value: T)

}
