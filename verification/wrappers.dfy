/** The optional value used for the `None` of a missing score and of a failed match attempt. */
module Wrappers {

  datatype Option<+T> = None | Some(value: T)
}
