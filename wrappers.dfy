/** Optional values, used for feed cells and forecast entries that may be absent. */
module Wrappers {

  datatype Option<+T> = None | Some(value: T)
}
