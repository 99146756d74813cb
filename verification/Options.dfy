/** The result of a computation that may have nothing to return. */
module Options {

  /** A transaction that throws, or a row that is missing, is None. */
  datatype Option<+T> = None | Some(value: T) {
    predicate IsFailure() { None? }
    function PropagateFailure<U>(): Option<U> requires None? { None }
    function Extract(): T requires Some? { value }
  }
}
