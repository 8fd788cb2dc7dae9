/** Optional values: what Go expresses with nil. */
module Wrappers {

  datatype Option<+T> = None | Some(value: T)
}
