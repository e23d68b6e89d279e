/** Optional values: a Java reference that may be null, a map lookup that may miss. */
module Wrappers {

  datatype Option<T> = None | Some(value: T)

}
