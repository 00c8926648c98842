/** Optional values, used where the source holds a reference that may be null. */
module Wrappers {

  datatype Option<+T> = None | Some(value: T)

}
