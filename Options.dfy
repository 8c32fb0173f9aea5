/** An optional value, standing for Python's `None` in the places the caption tool uses it. */
module Options {
  datatype Option<T> = None | Some(value: T)
}
