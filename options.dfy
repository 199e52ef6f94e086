/** The optional value used for probes and hits that may find nothing. */
module Options {
  datatype Option<+T> = None | Some(value: T)
}
