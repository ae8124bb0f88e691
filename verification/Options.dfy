/** A value that may be absent: the null RefPtr of the source. */
module Options {
  datatype Option<+T> = None | Some(value: T)
}
