/** Shared value types: nullable references, results, and the exceptions the
    bus and the host can raise. */
module Common {

  /** A .NET reference that may be null. */
  datatype Option<+T> = None | Some(value: T)

  /** The exceptions that matter to the model.  `Raised(id)` is any exception
      thrown by user code (a handler, a filter, a proxy, a component), named by
      an opaque id. */
  datatype Exn =
    | ArgumentNull(paramName: string)
    | WrongMessageType
    | NullReference
    | Raised(id: nat)

  /** Either a value or the exception that an operation threw. */
  datatype Result<+T> = Ok(value: T) | Err(error: Exn)

  /** Sequence concatenation regroups freely; the folds over registries and
      candidate lists use it to move one element across a join. */
  lemma AppendAssoc<T>(a: seq<T>, b: seq<T>, d: seq<T>)
    ensures a + b + d == a + (b + d)
  {
  }
}
