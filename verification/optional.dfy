/** The usual Some/None wrapper, for values a caller may not have. */
module Optional {

  datatype Option<+T> = None | Some(value: T)
}
