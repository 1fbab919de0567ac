/** The optional value used for JavaScript's `null` / "no match" results. */
module Wrappers {

  datatype Option<+T> = None | Some(value: T)
}
