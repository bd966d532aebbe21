/** Optional values, for the configuration New refuses. */
module Wrappers {

  datatype Option<+T> = None | Some(value: T)
}
