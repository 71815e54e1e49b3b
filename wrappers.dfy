/** The optional value the model uses for "not found" / "no route" answers (a JavaScript `null`). */
module Wrappers {
  datatype Option<+T> = None | Some(value: T)
}
