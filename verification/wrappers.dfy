/** Optional values, used where the dashboard yields `null`/`undefined`. */
module Wrappers {

  datatype Option<+T> = None | Some(value: T)
}
