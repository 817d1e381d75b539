/** Optional values: `None` stands for JavaScript's `undefined` (an unset
    environment variable, an omitted argument) or for a NaN number. */
module Wrappers {

  datatype Option<T> = None | Some(value: T)
}
