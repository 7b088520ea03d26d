/** Optional values: a Python `None` or an absent header/field. */
module Wrappers {

  datatype Option<+T> = None | Some(value: T)
}
