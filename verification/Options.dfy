/** A nullable column or result. */
module Options {
  datatype Option<+T> = None | Some(value: T)
}
