/** Optional values: TypeScript's `undefined` and `null` on one side, a value on the other. */
module Wrappers {

  datatype Option<+T> = None | Some(value: T)
}
