/** Optional values, used where the browser hands back "nothing" (a missing store entry, a prop not passed). */
module Wrappers {

  datatype Option<+T> = None | Some(value: T)
}
