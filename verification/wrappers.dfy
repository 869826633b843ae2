/** Optional values: the model's stand-in for Ruby's `nil`. */
module Wrappers {

  datatype Option<+T> = None | Some(value: T)
}
