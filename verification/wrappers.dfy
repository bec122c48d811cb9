/** The optional-value datatype used wherever the relay stores or sends a
    JavaScript value that may be `null`. */
module Wrappers {

  datatype Option<+T> = None | Some(value: T)
}
