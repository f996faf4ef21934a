/** Optional values: `None` is what JavaScript reads as an `undefined` property or array slot. */
module Wrappers {

  datatype Option<T> = None | Some(value: T)
}
