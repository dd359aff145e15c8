/** A nullable reference of the widget (a listener slot, a not-yet-computed point). */
module Wrappers {
  datatype Option<+T> = None | Some(value: T)
}
