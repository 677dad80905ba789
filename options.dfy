/** The optional value used for `undefined`-able fields and pending timers. */
module Options {
  datatype Option<+T> = None | Some(value: T)
}
