/** An optional value: `None` stands for a failed parse. */
module Wrappers {
  datatype Option<+T> = None | Some(value: T)
}
