/** HTTP answers, the errors handlers raise, and the application's global
    error handler. */
module Http {
  import opened Json

  /** A handler's answer: a status with a JSON payload, or a status with a
      `{ message }` body. */
  datatype Reply<T> = Data(status: nat, payload: T) | Message(status: nat, message: string)

  /** An error reported by PostgreSQL: its SQLSTATE code and its text. */
  datatype DbError = DbError(code: string, message: string)

  const ForeignKeyViolation := "23503"
  const InternalError := "XX000"

  /** What a handler throws: an `Error` carrying a `status` (0 when it
      has none), or a database error, which never carries one. */
  datatype Failure = Raised(status: nat, message: string) | Database(error: DbError)

  const DefaultErrorMessage := "Une erreur interne est survenue."

  /** The global handler: `err.status || 500` with `err.message`, or the
      default text when the message is empty. */
  function GlobalHandler<T>(f: Failure): (r: Reply<T>)
    ensures r.Message?
    ensures r.status == (if f.Raised? && f.status != 0 then f.status else 500)
    ensures r.message != ""
    ensures f.Raised? && f.message != "" ==> r.message == f.message
    ensures f.Database? && f.error.message != "" ==> r.message == f.error.message
    ensures (if f.Raised? then f.message else f.error.message) == "" ==> r.message == DefaultErrorMessage
  {
    var msg := if f.Raised? then f.message else f.error.message;
    Message(if f.Raised? && f.status != 0 then f.status else 500,
            if msg != "" then msg else DefaultErrorMessage)
  }

  /** The catch block of handlers that answer an error carrying a status
      themselves and pass every other error to the global handler. */
  function CatchWithStatus<T>(f: Failure): (r: Reply<T>)
    ensures r.Message?
    ensures f.Raised? && f.status != 0 ==> r == Message(f.status, f.message)
    ensures !(f.Raised? && f.status != 0) ==> r.status == 500
  {
    if f.Raised? && f.status != 0 then Message(f.status, f.message) else GlobalHandler(f)
  }

  /** A foreign-key violation becomes a 400 with the operation's message;
      every other database error goes on unchanged. */
  function ForeignKeyFailure(e: DbError, msg: string): (f: Failure)
    ensures f == Raised(400, msg) <==> e.code == ForeignKeyViolation
    ensures f.Database? <==> e.code != ForeignKeyViolation
    ensures f.Database? ==> f.error == e
  {
    if e.code == ForeignKeyViolation then Raised(400, msg) else Database(e)
  }
}
