/** What the browser's `fetch` hands the storefront pages: a thrown network
    error, or a status with the body text, and how an error is shown. */
module Fetch {
  import opened JsonValue

  /** A network error with its message, or a status and the body text. */
  datatype FetchResult = Threw(message: string) | Received(status: int, text: string)

  /** `response.ok`. */
  predicate IsOk(status: int) {
    200 <= status <= 299
  }

  /** An error message as shown: a string, or whatever JavaScript's `String`
      makes of a non-string JSON value that the server sent in its place. */
  datatype Message = Text(s: string) | StringOf(v: Json)

  /** The value's `String` form is empty: `""`, `[]`, and one-element arrays
      of `null` or of an empty-looking value. */
  predicate ShowsEmpty(v: Json) {
    match v
    case Str(s) => s == ""
    case Arr(es) => |es| == 0 || (|es| == 1 && (es[0].Null? || ShowsEmpty(es[0])))
    case _ => false
  }
}
