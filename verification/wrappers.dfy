/** The optional value used wherever the game keeps `null` for "nothing here". */
module Wrappers {

  datatype Option<+T> = None | Some(value: T)
}
