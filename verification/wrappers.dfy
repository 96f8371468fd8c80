/** Optional values, used where the source returns "nothing" or an empty item. */
module Wrappers {
  datatype Option<+T> = None | Some(value: T)
}
