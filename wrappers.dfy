/** Optional values, standing for JavaScript's `undefined` and Java's `null`. */
module Wrappers {

  datatype Option<+T> = None | Some(value: T)

}
