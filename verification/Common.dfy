/** Stock types shared by the modules of this project. */
module Common {

  datatype Option<+T> = None | Some(value: T)
}
