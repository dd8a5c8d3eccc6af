/** The value-or-nothing type the model uses wherever the program uses nil. */
module Options {

  datatype Option<+T> = None | Some(value: T)
}
