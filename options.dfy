/** The optional values the components keep in state (`null` in the source). */
module Options {

  datatype Option<+T> = None | Some(value: T)
}
