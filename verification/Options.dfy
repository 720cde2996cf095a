/** SQL NULL and Python None. */
module Options {
  datatype Option<+T> = None | Some(value: T)
}
