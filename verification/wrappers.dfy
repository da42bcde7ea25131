/** Optional values: an absent configuration field or request body. */
module Wrappers {

  datatype Option<+T> = None | Some(value: T)

}
