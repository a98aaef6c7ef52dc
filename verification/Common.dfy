/** Types shared by every module of the model. */
module Common {
  datatype Option<+T> = None | Some(value: T)
}
