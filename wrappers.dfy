/** The "order or nothing" result every rule and builder returns. */
module Wrappers {

  /** `None` stands for the source's `undefined` return ("no order"). */
  datatype Option<+T> = None | Some(value: T)
}
