/** Optional values: Java's nullable references and "null on failure" returns. */
module Wrappers {

  datatype Option<+T> = None | Some(value: T)
}
