/** The optional value shared by the models of this project (a nil pointer or an absent reply). */
module Options {
  datatype Option<+T> = None | Some(value: T)
}
