/** The usual optional-value wrapper, shared by the client and server models. */
module Options {

  datatype Option<+T> = None | Some(value: T)
}
