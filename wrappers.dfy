/** Optional values: the page's query result is either absent or a list of builds. */
module Wrappers {
  datatype Option<+T> = None | Some(value: T)
}
