/** An optional value: the pages read JSON fields and list entries that may be absent. */
module Wrappers {

  datatype Option<+T> = None | Some(value: T)

}
