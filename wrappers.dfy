/** Optional values, standing for the nullable references of the modelled code. */
module Wrappers {
  datatype Option<+T> = None | Some(value: T)
}
