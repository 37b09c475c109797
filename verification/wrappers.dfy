/** The optional-value datatype used for absent message content and for "no match". */
module Wrappers {

  datatype Option<+T> = None | Some(value: T)

}
