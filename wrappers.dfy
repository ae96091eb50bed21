/** Optional values, used for responses that may fail and timer slots that may be empty. */
module Wrappers {
  datatype Option<+T> = None | Some(value: T)
}
