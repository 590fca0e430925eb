/** Optional values, standing in for Go's nil-able pointers and for the
    (value, error) pairs that collaborators return when only success or
    failure matters to the model. */
module Wrappers {

  datatype Option<+T> = None | Some(value: T)
}
