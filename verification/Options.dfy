/** The optional value used throughout: a null pointer or an absent YAML key is `None`. */
module Options {
  datatype Option<+T> = None | Some(value: T)
}
