/** Optional values: the model's stand-in for a nullable column or a missing row. */
module Wrappers {

  datatype Option<+T> = None | Some(value: T)
}
