/** The optional value the script passes around where Python uses a dict or None. */
module Wrappers {

  datatype Option<+T> = None | Some(value: T)
}
