/** Optional values, used for a field that may be unset and for partial inverses. */
module Wrappers {

  datatype Option<+T> = None | Some(value: T)
}
