/** Optional values: a JSON key that may be absent, a call that may fail. */
module Wrappers {

  datatype Option<+T> = None | Some(value: T)
}
