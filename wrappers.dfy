/** The usual optional value, used for the frame handle that may be null,
    and the handle type itself. */
module Wrappers {
  datatype Option<+T> = None | Some(value: T)

  /** A frame handle as the host's scheduler returns it. */
  type Handle = nat
}
