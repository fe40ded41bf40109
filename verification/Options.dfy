/** A value that may be missing: a field that is not set, or a row that is not there. */
module Options {
  datatype Option<+T> = None | Some(value: T)
}
