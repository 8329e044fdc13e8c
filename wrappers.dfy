/** Optional values: a parsed number that may be NaN, a DOM element that may be absent. */
module Wrappers {
  datatype Option<+T> = None | Some(value: T)
}
