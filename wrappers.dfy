/** An optional value: used for a lookup that may find nothing and for a
    record field that may be absent. */
module Wrappers {

  datatype Option<+T> = None | Some(value: T)

}
