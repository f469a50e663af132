/** The optional value the application expresses with Python's None. */
module Wrappers {

  datatype Option<+T> = None | Some(value: T)
}
