/** The optional-value wrapper used for the receiver's "not yet known" state fields. */
module Wrappers {

  datatype Option<+T> = None | Some(value: T)
}
