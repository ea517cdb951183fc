/** Optional values, standing for the JavaScript `null`/`undefined` cases. */
module Wrappers {

  datatype Option<+T> = None | Some(value: T)
}
