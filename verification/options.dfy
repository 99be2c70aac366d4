/** The optional values of the component's state (`T | null` in the source). */
module Options {
  datatype Option<+T> = None | Some(value: T)
}
