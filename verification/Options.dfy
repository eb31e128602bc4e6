/** The one generic datatype the other modules share: a value that may be missing. */
module Options {
  datatype Option<+T> = None | Some(value: T)
}
