/** Optional values, used where the page script works with `null`. */
module Wrappers {

  datatype Option<+T> = None | Some(value: T)
}
