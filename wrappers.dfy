/** An optional value: an unset callback slot, an undefined interval, an empty `stopRef`. */
module Wrappers {
  datatype Option<+T> = None | Some(value: T)
}
