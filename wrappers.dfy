/** Optional values, used for inputs that may never happen. */
module Wrappers {

  datatype Option<+T> = None | Some(value: T)
}
