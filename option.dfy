/** A value that may be missing: JavaScript's `null` in a `T | null` state field. */
module Optional {
  datatype Option<T> = None | Some(value: T)
}
