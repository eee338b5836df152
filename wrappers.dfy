/** Optional values: JavaScript's `undefined`/`null` results where the page looks something up. */
module Wrappers {
  datatype Option<+T> = None | Some(value: T)
}
