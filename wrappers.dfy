/** Optional values, for JavaScript's `null`/`undefined` and for regular-expression matches. */
module Wrappers {
  datatype Option<+T> = None | Some(value: T)
}
