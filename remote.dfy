/** Replies of the remote services (the hosted database, the auth service, HTTP
    endpoints), taken as given outcomes: the model never performs the call itself. */
module Remote {
  import opened Wrappers

  /** What a failed call throws: an `Error` instance with its message, or some other
      value (a plain error object) for which `err instanceof Error` is false. */
  datatype Failure = ErrorInstance(message: string) | PlainObject(message: string)

  /** `err instanceof Error ? err.message : fallback`, the pattern every page uses. */
  function MessageOr(f: Failure, fallback: string): (m: string)
    ensures f.ErrorInstance? ==> m == f.message
    ensures f.PlainObject? ==> m == fallback
  {
    if f.ErrorInstance? then f.message else fallback
  }

  /** A remote call that either returns data or fails. */
  datatype Outcome<+T> = Success(data: T) | Failed(failure: Failure)

  /** A request to the hosted database, as the model records it: the table, the column
      of the equality filter and the value it is compared with (`None` for `undefined`). */
  datatype Query =
    | SelectWhere(table: string, column: string, value: Option<string>, orderBy: string, ascending: bool)
    | DeleteWhere(table: string, column: string, value: Option<string>)
}
