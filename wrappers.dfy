/** Optional values, used for the lock slot and for the fault an environment injects. */
module Wrappers {
  datatype Option<+T> = None | Some(value: T)
}
