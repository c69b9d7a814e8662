/** Optional values: the model's counterpart of a TypeScript value that may be `undefined`. */
module Wrappers {

  datatype Option<+T> = None | Some(value: T)
}
