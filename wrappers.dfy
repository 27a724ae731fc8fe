/** An optional value, used by the processor model. */
module Wrappers {

  /** An optional value: `None` stands for "nothing there". */
  datatype Option<+T> = None | Some(value: T)
}
