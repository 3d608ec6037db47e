/** The optional value used wherever the source has a nil, an `ok` flag or an error it only tests for. */
module Options {
  datatype Option<+T> = None | Some(value: T)
}
