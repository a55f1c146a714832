/** Optional values: `None` stands for JavaScript's `null`, `undefined` and a missing field. */
module Wrappers {

  datatype Option<+T> = None | Some(value: T)
}
