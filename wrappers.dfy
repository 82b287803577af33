/** Optional values: a claim or a parameter that may be absent, a decoding that may fail. */
module Wrappers {

  datatype Option<+T> = None | Some(value: T)
}
