// Shared by the protocol modules: an optional value, standing for the source's nullable pointers.
module Options {
  datatype Option<+T> = None | Some(value: T)
}
