/** Optional values: the model's stand-in for Java's null and Ruby's nil. */
module Wrappers {

  datatype Option<+T> = None | Some(value: T)
}
