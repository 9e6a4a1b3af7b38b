/** Values that cross the boundary between the front end and the hosted backend:
    optional values, thrown errors, and the results of remote calls. Every remote
    call is an input of the step that awaits it. */
module Outcomes {

  datatype Option<T> = None | Some(value: T)

  /** A thrown JavaScript error; `message` is absent when the thrown value has none. */
  datatype Exception = Exception(message: Option<string>)

  /** What an awaited remote call that yields a nullable value does: it resolves to a
      value or to null, or it rejects with an error. */
  datatype Remote<T> = Resolved(result: Option<T>) | Rejected(error: Exception)
  {
    /** The call resolved to a non-null value. */
    predicate Found() {
      Resolved? && result.Some?
    }
  }

  /** What an awaited remote call with no useful value does: it completes or it rejects. */
  datatype Outcome = Succeeded | Failed(error: Exception)
}
