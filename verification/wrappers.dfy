/** Optional values, used for lookups that may miss and for failure outcomes. */
module Wrappers {

  datatype Option<+T> = None | Some(value: T)
}
