/** The optional value used where the source keeps a nullable reference. */
module Options {
  datatype Option<+T> = None | Some(value: T)
}
