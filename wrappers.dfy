/** Optional values: a field of a record that may be absent (`field?: T` in the source's types). */
module Wrappers {

  datatype Option<+T> = None | Some(value: T)
}
