/** Optional values, for fields and handles that may be absent
    (`null`/`undefined` in JavaScript, `None` in Python). */
module Wrappers {
  datatype Option<T> = None | Some(value: T)
}
