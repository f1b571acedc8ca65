/** Optional values, used for absent headers and failed conversions. */
module Wrappers {

  datatype Option<+T> = None | Some(value: T)
}
