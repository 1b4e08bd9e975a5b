/** Optional values, standing in for the source's NULL pointers and NO_PATCH sentinels. */
module Wrappers {

  datatype Option<T> = None | Some(value: T)
}
