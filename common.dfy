/** Result shapes shared by the stores and components: optional values,
    what an awaited call into the persistence client resolves to, and how
    an asynchronous store action settles. */
module Common {

  datatype Option<+T> = None | Some(value: T)

  /** Something thrown: either a rejection from the persistence client or an
      `Error` the code raises itself. Only `Error` instances contribute their
      own message to the store's `error` field. */
  datatype Failure = Failure(message: string, isErrorInstance: bool)

  /** An awaited client call: the `data` it returned, or its `error`. */
  datatype Reply<+T> = Done(data: T) | Failed(failure: Failure)

  /** An async action either resolves with a value or rejects with what it threw. */
  datatype Outcome<+T> = Resolved(value: T) | Rejected(failure: Failure)

  /** `new Error(message)` */
  function ErrorOf(message: string): Failure
  {
    Failure(message, true)
  }

  /** `error instanceof Error ? error.message : fallback`, the message every
      store action records before it re-throws. */
  function MessageOf(f: Failure, fallback: string): (m: string)
    ensures f.isErrorInstance ==> m == f.message
    ensures !f.isErrorInstance ==> m == fallback
  {
    if f.isErrorInstance then f.message else fallback
  }
}
