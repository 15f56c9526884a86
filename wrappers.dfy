/** The optional-value type used by the start-up checks. */
module Wrappers {
  datatype Option<+T> = None | Some(value: T)
}
