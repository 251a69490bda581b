/**
 * The remote account service as the application sees it. Every call either
 * resolves with a value or rejects with an error; the model receives that
 * outcome as a parameter instead of performing the call, and the methods that
 * make calls report which ones they made, in order.
 */
module Account {

  /** A rejected promise's error; only its message is ever read. */
  datatype Error = Error(message: string)

  /** What one remote call settles to. */
  datatype Remote<+T> = Ok(value: T) | Fail(error: Error)

  /** How an `async` operation of the application itself settles. */
  datatype Outcome = Resolved | Rejected(error: Error)

  datatype Session = Session(id: string, userId: string)

  datatype User = User(id: string, name: string, email: string)

  /** The `account.*` calls the core makes. */
  datatype Call =
    | Get
    | GetSession(sessionId: string)
    | CreateEmailPasswordSession(email: string, password: string)
    | DeleteSession(sessionId: string)
    | Create(email: string, password: string, name: string)

  /** What a form's submit ends in: stopped by validation (Invalid), a navigation
      (`router.replace`), or an alert (`Alert.alert`). Both auth forms end in one. */
  datatype SubmitResult = Invalid | Navigated(route: string) | Alerted(title: string, message: string)

  /** The session id the application always passes to getSession and deleteSession. */
  const CurrentSession := "current"

  /** `error?.message || fallback`: the message of the error, or the fallback when it is empty. */
  function MessageOr(e: Error, fallback: string): (m: string)
    ensures e.message != "" ==> m == e.message
    ensures e.message == "" ==> m == fallback
    ensures m == "" ==> fallback == ""
  {
    if e.message != "" then e.message else fallback
  }
}
