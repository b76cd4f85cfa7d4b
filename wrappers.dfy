/** Optional values, used for absent keys, absent roots and "no error". */
module Wrappers {
  datatype Option<+T> = None | Some(value: T)
}
