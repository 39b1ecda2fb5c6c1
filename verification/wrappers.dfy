/** An optional value: None stands for a rate that is missing (a null, NaN in pandas). */
module Wrappers {
  datatype Option<+T> = None | Some(value: T)
}
