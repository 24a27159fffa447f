/** A value that may be absent: stands for the nullable references (`string?`)
    that the view model receives from pickers and from the output streams. */
module Wrappers {

  datatype Option<+T> = None | Some(value: T)
}
