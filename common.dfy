/** Value types shared by the request-handling core. */
module Common {

  /** A value that may be absent (`null` or `undefined` in the source). */
  datatype Option<+T> = None | Some(value: T)

  /** The result of a check that either passes or fails with an error (a thrown error in the source). */
  datatype Outcome<+E> = Pass | Fail(error: E)

  /** The authorization levels of the `Role` enum in the database schema. */
  datatype Role = Admin | Staff
}
