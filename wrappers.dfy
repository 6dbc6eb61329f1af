/** The usual optional value, for `null` references and failed lookups. */
module Wrappers {
  datatype Option<+T> = None | Some(value: T)
}
