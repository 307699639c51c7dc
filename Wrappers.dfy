/** Optional values: Python's `None` and what SQL `fetchone()` returns. */
module Wrappers {

  datatype Option<+T> = None | Some(value: T)
}
