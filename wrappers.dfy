/** Optional values, for the fields the browser may leave unset. */
module Wrappers {

  datatype Option<+T> = None | Some(value: T)
}
