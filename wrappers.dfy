/** The optional value the rest of the model uses for "present or absent" and "succeeded or threw". */
module Wrappers {

  datatype Option<+T> = None | Some(value: T)
}
