/** The optional value used for the firmware's nullable pointers and for
    every parse that can fail. */
module Options {

  datatype Option<+T> = None | Some(value: T)
}
