/** The maybe-absent result of an SDK query: `undefined` in the source becomes `None`. */
module Wrappers {

  datatype Option<+T> = None | Some(value: T)
}
