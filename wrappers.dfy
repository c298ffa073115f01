/** Optional values, standing in for the Java `null` that the modelled code tests for. */
module Wrappers {

  datatype Option<+T> = None | Some(value: T)
}
