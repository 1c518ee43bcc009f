/** Optional values, standing in for the source's nullable pointers and absent results. */
module Wrappers {

  datatype Option<+T> = None | Some(value: T)
}
