/** Small shared vocabulary: an optional value and the opaque error a database call reports. */
module Base {

  /** Go's nil-or-value: a nil slice or pointer, or a nil `error`, is `None`. */
  datatype Option<+T> = None | Some(value: T)

  /** An error returned by the database driver; only its identity matters to the model. */
  datatype DbError = DbError(message: string)
}
