/** Optional values, for the source's `None` / "nothing happened" cases. */
module Wrappers {

  datatype Option<+T> = None | Some(value: T)
}
