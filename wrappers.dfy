/** The conventional optional value: `None` stands for JavaScript's thrown
    parse error or `undefined` lookup. */
module Wrappers {
  datatype Option<+T> = None | Some(value: T)
}
