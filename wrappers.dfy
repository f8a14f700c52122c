/** The optional value used for the component's nullable props. */
module Wrappers {
  datatype Option<+T> = None | Some(value: T)
}
