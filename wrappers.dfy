/** The usual Some/None datatype, used for values a step may fail to produce. */
module Wrappers {

  datatype Option<+T> = None | Some(value: T)
}
