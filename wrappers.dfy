/** Optional values, used wherever the source returns "nothing" (None, NULL, npos). */
module Wrappers {
  datatype Option<T> = None | Some(value: T)
}
