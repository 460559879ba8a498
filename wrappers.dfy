/** A value that may be absent, as an editor whose content has not been set yet. */
module Wrappers {

  datatype Option<+T> = None | Some(value: T)
}
