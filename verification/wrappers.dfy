/** An optional value: `None` stands for a JavaScript `undefined` field. */
module Wrappers {

  datatype Option<+T> = None | Some(value: T)
}
