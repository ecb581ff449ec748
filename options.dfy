/** The optional value shared by the modules of this project: Python's `None` or a value. */
module Options {

  datatype Option<+T> = None | Some(value: T)

}
