/** Option values stand in for the null pointers the model's lookups may return. */
module Wrappers {

  datatype Option<+T> = None | Some(value: T)

}
