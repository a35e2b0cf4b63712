/** The optional value used for "fetch yielded content or not". */
module Wrappers {

  datatype Option<+T> = None | Some(value: T)
}
