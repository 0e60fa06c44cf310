/** The optional value that most of the modelled state uses for an absent field. */
module Options {
  datatype Option<+T> = None | Some(value: T)
}
