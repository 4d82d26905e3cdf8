/** Optional values, standing for the nullable references of the walker. */
module Wrappers {

  datatype Option<+T> = None | Some(value: T)
}
