/** The optional value shared by the models of nullable fields and parameters. */
module Options {
  datatype Option<+T> = None | Some(value: T)
}
