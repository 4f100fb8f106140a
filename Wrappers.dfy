/** Optional values: an unset slot, a missing table entry. */
module Wrappers {

  datatype Option<+T> = None | Some(value: T)
}
