/** The optional value the view code expresses with `undefined`/`null`. */
module Wrappers {

  datatype Option<+T> = None | Some(value: T)
}
