/** The optional value used where the source stores `None`. */
module Options {
  datatype Option<+T> = None | Some(value: T)
}
