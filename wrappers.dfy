/** Optional values, shared by the modules of this model. */
module Wrappers {

  /** A value that may be absent: a missing parse result, a request that never arrived. */
  datatype Option<+T> = None | Some(value: T)
}
