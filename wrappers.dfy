/** Optional values: a dictionary lookup that may miss, a creation that may fail. */
module Wrappers {

  datatype Option<+T> = None | Some(value: T)
}
