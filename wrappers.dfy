/** The optional-value datatype used throughout the model: a Go pointer that may be
    nil, a map lookup that may miss, an `error` that may be nil. */
module Wrappers {

  datatype Option<+T> = None | Some(value: T)
}
