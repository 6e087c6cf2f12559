/** Optional values: a JavaScript `null` or `undefined` is `None`. */
module Wrappers {

  datatype Option<+T> = None | Some(value: T)
}
