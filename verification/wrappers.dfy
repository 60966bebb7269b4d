/** Optional values: a zoom viewport that may not exist yet, a selection anchor that may be unset. */
module Wrappers {
  datatype Option<+T> = None | Some(value: T)
}
