/** The optional values the widget's state is made of (`T | null` in the source). */
module Wrappers {

  datatype Option<+T> = None | Some(value: T)
}
