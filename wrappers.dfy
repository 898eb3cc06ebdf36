/** Optional values: Kotlin's nullable types (`String?`) become `Option<string>`. */
module Wrappers {

  datatype Option<+T> = None | Some(value: T)
}
