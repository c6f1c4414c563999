/** Values that cross the boundary to code this model does not contain:
    the outcome of a remote call and the value a JavaScript `catch` sees. */
module Remote {

  datatype Option<+T> = None | Some(value: T) {
    function GetOr(default: T): T {
      match this
      case Some(v) => v
      case None => default
    }
  }

  /** A thrown JavaScript value: its `name`, its `message` ("" when absent),
      and whether it is an `Error` instance (`instanceof Error`). */
  datatype Thrown = Thrown(name: string, message: string, isError: bool)

  /** A plain `new Error(message)`. */
  function PlainError(message: string): (e: Thrown)
    ensures e.isError && e.name == "Error" && e.message == message
  {
    Thrown("Error", message, true)
  }

  /** The outcome of one awaited remote call: it resolves or it throws. */
  datatype Outcome<+T> = Success(value: T) | Failure(error: Thrown)

  /** `err.message || fallback`: the message when it is a non-empty string. */
  function MessageOr(e: Thrown, fallback: string): (m: string)
    ensures e.message != "" ==> m == e.message
    ensures e.message == "" ==> m == fallback
  {
    if e.message != "" then e.message else fallback
  }

  /** `error instanceof Error ? error.message : fallback`: an `Error` keeps its
      message even when that message is empty. */
  function ErrorMessageOr(e: Thrown, fallback: string): (m: string)
    ensures e.isError ==> m == e.message
    ensures !e.isError ==> m == fallback
  {
    if e.isError then e.message else fallback
  }
}
