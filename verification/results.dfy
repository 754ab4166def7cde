/** Wrappers used by the store: an optional value (a nullable column) and the
    outcome of an operation that can be refused. */
module Results {

  /** A nullable value: `None` is the database NULL. */
  datatype Option<+T> = None | Some(value: T)

  /** The outcome of a store operation: the new value, or the reason it was refused. */
  datatype Result<+T, +E> = Success(value: T) | Failure(error: E)
}
