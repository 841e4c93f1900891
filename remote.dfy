/** How the stores see a call to the application's own HTTP endpoints. The
    network is not modelled: the outcome of a call is given to the store as a
    value. */
module Remote {

  /** The message a store records for a caught value that is not an `Error`. */
  const CaughtFallback := "An error occurred"

  /** A value caught by `catch (error)`: an `Error` carrying its message, or
      anything else that was thrown. */
  datatype Thrown = ErrorObject(message: string) | OtherValue

  /** The outcome of `fetch(...)` followed by `response.json()`: an ok response
      with its decoded body, a response whose `ok` flag is false, or a thrown
      value (network failure, malformed JSON). */
  datatype HttpOutcome<T> = Ok(body: T) | NotOk | Threw(thrown: Thrown)

  /** `error instanceof Error ? error.message : fallback` */
  function CaughtMessage(t: Thrown, fallback: string): (m: string)
    ensures t.ErrorObject? ==> m == t.message
    ensures t.OtherValue? ==> m == fallback
  {
    match t
    case ErrorObject(msg) => msg
    case OtherValue => fallback
  }

  /** The message a store records for a failed call: a non-ok response is turned
      into `throw new Error(notOkMessage)` and then caught like any other error. */
  function FailureMessage<T>(o: HttpOutcome<T>, notOkMessage: string, fallback: string): (m: string)
    requires !o.Ok?
    ensures o.NotOk? ==> m == notOkMessage
    ensures o.Threw? ==> m == CaughtMessage(o.thrown, fallback)
  {
    match o
    case NotOk => CaughtMessage(ErrorObject(notOkMessage), fallback)
    case Threw(t) => CaughtMessage(t, fallback)
  }
}
