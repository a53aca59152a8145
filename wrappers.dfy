/** Optional values, used for lookups that may find nothing and for the
    exception a handler may end with. */
module Wrappers {

  datatype Option<+T> = None | Some(value: T)
}
