/** Failure-compatible wrappers. `Option` stands for a Rust `Option` returned by a
    map lookup or a parse; `Result` turns every `unwrap` of the store into a
    value, so that a panic of the whole call becomes a `Failure` the contracts
    can talk about. */
module Results {

  datatype Option<+T> = None | Some(value: T)

  datatype Result<+T, +E> = Success(value: T) | Failure(error: E) {

    predicate IsFailure() {
      Failure?
    }

    function PropagateFailure<U>(): Result<U, E>
      requires Failure?
    {
      Failure(error)
    }

    function Extract(): T
      requires Success?
    {
      value
    }
  }
}
