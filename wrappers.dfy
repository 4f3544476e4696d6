/** The optional value used wherever the backend returns `None` or a document. */
module Wrappers {
  datatype Option<+T> = None | Some(value: T)
}
