/** The usual optional value: a nullable field or argument of the sources. */
module Options {
  datatype Option<+T> = None | Some(value: T)
}
