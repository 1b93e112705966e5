/** Optional values, for outputs the calculator may or may not produce. */
module Wrappers {

  datatype Option<+T> = None | Some(value: T)
}
