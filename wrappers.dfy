/** Optional values: the model's stand-in for JavaScript `undefined`/NaN and Python exceptions. */
module Wrappers {

  datatype Option<+T> = None | Some(value: T)
}
