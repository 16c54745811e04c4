/** The optional value the logger uses for "not yet set" (`start is None`)
    and for a ramp step that could not be computed. */
module Wrappers {

  datatype Option<+T> = None | Some(value: T)
}
