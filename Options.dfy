/** The optional value used wherever the source accepts or returns a null reference. */
module Options {
  datatype Option<+T> = None | Some(value: T)
}
