/** The value-or-nothing type that stands for the source's nil pointers. */
module Option {
  datatype Option<+T> = None | Some(value: T)
}
