/** Option: the model of a nullable column (Python `None` or a value). */
module Wrappers {

  datatype Option<+T> = None | Some(value: T)
}
