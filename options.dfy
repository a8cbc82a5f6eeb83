/** The optional value used throughout the model: `undefined` in mockLink.ts is `None`. */
module Options {
  datatype Option<+T> = None | Some(value: T)
}
