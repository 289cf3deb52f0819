/** A value or none: the source's `Option`, and its null pointers. */
module Options {
  datatype Option<+T> = None | Some(value: T)
}
