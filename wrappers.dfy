/** Optional values: a JavaScript value that may be absent (`null`, `NaN`). */
module Wrappers {
  datatype Option<+T> = None | Some(value: T)
}
