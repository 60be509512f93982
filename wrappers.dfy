/** Optional values: the model's stand-in for a C# null or for "no value produced". */
module Wrappers {
  datatype Option<+T> = None | Some(value: T)
}
