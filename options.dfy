/** An optional value: Go's nil pointer results (`*token`) become `None`. */
module Options {
  datatype Option<+T> = None | Some(value: T)
}
