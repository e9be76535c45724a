/** Optional values: a JavaScript `undefined` or a missing record key. */
module Wrappers {

  datatype Option<+T> = None | Some(value: T)
}
