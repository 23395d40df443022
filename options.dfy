/** The usual optional value, used for "absent" in the model. */
module Options {

  datatype Option<+T> = None | Some(value: T)
}
