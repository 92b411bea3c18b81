/** An optional value: `None` stands for a computation the source cannot complete
    (an exception, or a value numpy would turn into NaN). */
module Wrappers {
  datatype Option<+T> = None | Some(value: T)
}
