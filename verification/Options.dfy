/** The option type shared by all models. */
module Options {
  datatype Option<+T> = None | Some(value: T)
}
