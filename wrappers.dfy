/** Optional values, standing in for the pointers that sasalib_t leaves NULL until they are set. */
module Wrappers {
  datatype Option<+T> = None | Some(value: T)
}
