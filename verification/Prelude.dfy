/** The optional value every part of the model uses. */
module Prelude {
  datatype Option<+T> = None | Some(value: T)
}
