/** Optional values: Go's nil interface values and the `ok` results of lookups. */
module Wrappers {

  datatype Option<+T> = None | Some(value: T)
}
