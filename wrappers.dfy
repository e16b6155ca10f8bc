/** The optional value the model uses wherever the source returns `Option`. */
module Wrappers {
  datatype Option<+T> = None | Some(value: T)
}
