/** The optional-value datatype used for possibly-unset environment variables
    and for partial decoders. */
module Wrappers {

  datatype Option<+T> = None | Some(value: T)
}
