/** A value that the source may leave null, or an optional argument. */
module Optional {
  datatype Option<+T> = None | Some(value: T)
}
