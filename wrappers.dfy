/** The optional value used for calls into the audio backend that can fail or find nothing. */
module Wrappers {
  datatype Option<+T> = None | Some(value: T)
}
