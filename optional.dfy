/** Optional values, as Swift's `T?`. */
module Optional {

  /** A value that may be absent (`nil`). */
  datatype Option<+T> = None | Some(value: T)
}
