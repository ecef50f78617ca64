/** Optional values: a `user_data` entry that may not have been written yet. */
module Wrappers {
  datatype Option<+T> = None | Some(value: T)
}
