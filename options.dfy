/** The optional value used for React state that starts out as `null` and for
    network responses that may fail. */
module Options {
  datatype Option<+T> = None | Some(value: T)
}
