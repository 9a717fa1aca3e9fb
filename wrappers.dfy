/** Optional values, shared by both halves of the model. */
module Wrappers {

  datatype Option<+T> = None | Some(value: T)
}
