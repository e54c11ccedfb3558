/** The optional-value datatype used where the captioner's Python code has a
    missing dictionary key or a value that does not parse. */
module Wrappers {

  datatype Option<+T> = None | Some(value: T)
}
