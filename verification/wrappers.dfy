/** Option, the result of every partial step: `None` where the source
    raises or gives up, `Some` with the value otherwise. */
module Wrappers {

  datatype Option<+T> = None | Some(value: T)
}
