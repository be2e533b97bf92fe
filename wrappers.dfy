/** Optional values: the model's form of a TypeScript `T | null`. */
module Wrappers {
  datatype Option<+T> = None | Some(value: T)
}
