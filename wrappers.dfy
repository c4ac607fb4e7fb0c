/** The source's nullable values (a `None` in a NumPy object array, a SQL NULL) as an explicit variant. */
module Wrappers {

  datatype Option<+T> = None | Some(value: T)
}
