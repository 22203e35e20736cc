/** Optional values, as SQL's nullable columns. */
module Wrappers {
  datatype Option<+T> = None | Some(value: T)
}
