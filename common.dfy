/** Values shared by every part of the model: optional values, what a JavaScript
    `throw` carries, and the result of awaiting a backend call. */
module Common {

  datatype Option<+T> = None | Some(value: T) {
    /** `x ?? fallback` / `x || fallback` for a value that is either present or missing. */
    function GetOr(fallback: T): T {
      match this
      case Some(v) => v
      case None => fallback
    }
  }

  /** What a `throw` carries: an `Error` object with its message, or any other value
      (a backend error record that is not an `Error` instance, a string, ...). */
  datatype Thrown = ErrorObject(message: string) | OtherValue

  /** The settled result of an awaited backend call: it resolves with a value or
      rejects with a thrown value. Every backend call of the app is an input of
      this type, so the model makes no assumption about the backend. */
  datatype Outcome<+T> = Resolved(value: T) | Rejected(thrown: Thrown)

  /** The message every catch block of the app shows or stores:
      `err instanceof Error ? err.message : fallback`. */
  function DisplayMessage(t: Thrown, fallback: string): string {
    match t
    case ErrorObject(msg) => msg
    case OtherValue => fallback
  }

  /** Both registration and the password change refuse passwords shorter than this. */
  const MinPasswordLength := 6
}
