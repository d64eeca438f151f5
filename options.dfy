/** Optional values: a field that may be missing (`undefined` or `null`). */
module Options {
  datatype Option<T> = None | Some(value: T)
}
