/** Optional values: an environment variable that may be unset, a request
    header or query parameter that may be absent. */
module Wrappers {

  datatype Option<+T> = None | Some(value: T)
}
