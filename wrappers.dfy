/** Option, standing in for the C# null reference. */
module Wrappers {
  datatype Option<+T> = None | Some(value: T)
}
