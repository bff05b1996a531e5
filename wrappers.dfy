/** The optional value returned by the parsers that invert the planner's
    text renderings (day labels, export file names). */
module Wrappers {
  datatype Option<+T> = None | Some(value: T)
}
