/** Optional values shared by the sample models. */
module Wrappers {
  datatype Option<T> = None | Some(value: T)
}
