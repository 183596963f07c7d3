/** The optional value used where the game holds "nothing yet" (Python's None). */
module Wrappers {
  datatype Option<+T> = None | Some(value: T)
}
