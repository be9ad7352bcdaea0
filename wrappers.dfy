/** The optional value used for Python's `str | None` and `dict | None` results. */
module Wrappers {

  datatype Option<+T> = None | Some(value: T)
}
