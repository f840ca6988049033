/** Optional values: a query that finds no row, a header that is not set, a callback that is null. */
module Wrappers {

  datatype Option<+T> = None | Some(value: T)
}
