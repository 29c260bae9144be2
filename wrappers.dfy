/** Optional values: the model's stand-in for the source's null references and absent keys. */
module Wrappers {
  datatype Option<+T> = None | Some(value: T)
}
