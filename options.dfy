/** The optional value used for the generator's lookahead and the machine's registers. */
module Options {
  datatype Option<+T> = None | Some(value: T)
}
