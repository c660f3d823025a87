/** Optional values, used for "no spot found" and "no ball yet". */
module Wrappers {

  datatype Option<+T> = None | Some(value: T)
}
