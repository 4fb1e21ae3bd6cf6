/** The optional-value wrapper used for fields that a configuration record may omit. */
module Wrappers {

  datatype Option<+T> = None | Some(value: T)
}
