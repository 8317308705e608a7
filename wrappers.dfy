/** Optional values: a missing cell of a nullable column, or a result that
    pandas would report as NaN or infinity. */
module Wrappers {
  datatype Option<+T> = None | Some(value: T)
}
