// Optional values: a nullable column, a lookup that may miss.
module Options {
  datatype Option<+T> = None | Some(value: T)
}
