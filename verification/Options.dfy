/** The optional value used throughout the models. */
module Options {
  datatype Option<+T> = None | Some(value: T)
}
