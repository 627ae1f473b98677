/** Optional values: the model of C# nullable values and null references. */
module Wrappers {
  datatype Option<+T> = None | Some(value: T)
}
