/** Java's nullable references, as an explicit Option. */
module Wrappers {

  datatype Option<+T> = None | Some(value: T)
}
