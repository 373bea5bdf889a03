/** Optional values: a JSON key that may be absent, a uid that may be unset. */
module Wrappers {

  datatype Option<+T> = None | Some(value: T)
}
