/** Optional values shared by the modules. */
module Wrappers {

  /** A value that may be absent: JavaScript's `null`/`undefined` on the one hand,
      a present value on the other. */
  datatype Option<+T> = None | Some(value: T)
}
