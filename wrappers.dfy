/** Optional values: a document field that is either set or absent. */
module Wrappers {

  datatype Option<+T> = None | Some(value: T)
}
