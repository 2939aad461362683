/** Optional values, used by the parsers of the address module. */
module Wrappers {

  datatype Option<+T> = None | Some(value: T)

}
