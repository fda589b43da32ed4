/** Optional values: `None` stands for JavaScript's `undefined` or an absent key. */
module Wrappers {

  datatype Option<+T> = None | Some(value: T)
}
