/** The value-or-nothing type the other modules use where the shell has `null`. */
module Options {
  datatype Option<+T> = None | Some(value: T)
}
