/** The failure-carrying value type used wherever the source can raise. */
module Wrappers {

  datatype Option<+T> = None | Some(value: T)
}
