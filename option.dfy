/** The "no value" result the Python code signals with `None`. */
module Options {

  datatype Option<+T> = None | Some(value: T)
}
