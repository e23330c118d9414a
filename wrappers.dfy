/** The optional value used for the oracles' "no hit" and "no scatter" answers. */
module Wrappers {

  datatype Option<+T> = None | Some(value: T)
}
