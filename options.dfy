/** The optional value used wherever the game either does something or nothing. */
module Options {
  datatype Option<+T> = None | Some(value: T)
}
