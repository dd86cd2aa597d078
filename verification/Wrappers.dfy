/** The one failure-free wrapper the modules share. */
module Wrappers {

  datatype Option<+T> = None | Some(value: T)

}
