/** Optional values: JavaScript's `undefined`/`null` for a field that may be absent. */
module Wrappers {
  datatype Option<+T> = None | Some(value: T)
}
