/** Optional values, standing for Python's `None` in the settings record. */
module Wrappers {

  datatype Option<+T> = None | Some(value: T)
}
