/** Option, used for the source's null pointers, failed reads and exits. */
module Wrappers {

  datatype Option<+T> = None | Some(value: T)
}
