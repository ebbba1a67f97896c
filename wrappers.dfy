/** Optional values: a record or field that may be absent (`null` / `undefined`). */
module Wrappers {

  datatype Option<+T> = None | Some(value: T)
}
