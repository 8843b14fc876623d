/** Optional values: `None` stands for a C# `null` reference or a nullable value without one. */
module Wrappers {

  datatype Option<+T> = None | Some(value: T)
}
