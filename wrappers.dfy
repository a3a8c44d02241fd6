/** The optional-value datatype used for Go's nil slices, nil function values and unwritten statuses. */
module Wrappers {

  datatype Option<+T> = None | Some(value: T)
}
