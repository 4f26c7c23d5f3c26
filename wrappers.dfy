/** An optional value: `None` stands for a JavaScript property that is undefined. */
module Wrappers {

  datatype Option<+T> = None | Some(value: T)
}
