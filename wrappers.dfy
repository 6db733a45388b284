/** Optional values and the native layer's nullable pointers. */
module Wrappers {

  datatype Option<+T> = None | Some(value: T)

  /** A raw pointer handed back by the native layer: null, or pointing at a value. */
  datatype Ptr<+T> = Null | NonNull(target: T)
}
