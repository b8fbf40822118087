/** The optional value used for a nullable column, a missing header and a query that returned no row. */
module Wrappers {

  datatype Option<+T> = None | Some(value: T)
}
