/** Optional values, used where the PHP code returns null or false for "nothing". */
module Wrappers {

  datatype Option<+T> = None | Some(value: T)
}
