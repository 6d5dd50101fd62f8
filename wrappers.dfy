/** Optional values: TypeScript's `T | null` (and an absent key of a partial object). */
module Wrappers {

  datatype Option<+T> = None | Some(value: T)

}
