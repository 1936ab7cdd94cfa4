/** Option: the Python scripts' `None` results and optional previous moves. */
module Wrappers {

  datatype Option<+T> = None | Some(value: T)

}
