/** What the components see of the remote bookmark service and of the
    enrichment service once HTTP and JSON are abstracted away. */
module Api {

  datatype Option<+T> = None | Some(value: T)

  /** The end of one awaited `fetch` (and, where the component reads it, the
      awaited `response.json()` or `response.text()`):
      - `Ok(body)`: `response.ok` held and the body was read;
      - `Rejected(detail)`: `response.ok` was false; `detail` is the JSON
        body's `detail` member when it is a string, `None` when absent;
      - `Thrown(message)`: the request or the body parse threw; `message` is
        the exception's `message`. */
  datatype Reply<+T> = Ok(body: T) | Rejected(detail: Option<string>) | Thrown(message: string)

  /** The form-encoded body of a token request: `username` and `password`. */
  datatype TokenRequest = TokenRequest(username: string, password: string)

  /** How a sign-in attempt ends: with an error message on the form, or with
      the token stored and the user signed in. */
  datatype Outcome = Failed(message: string) | SignedIn(token: string)

  /** JavaScript's `data.detail || fallback` for a detail that is a string or
      absent: a missing or empty detail is falsy and gives way to the fallback. */
  function DetailOr(detail: Option<string>, fallback: string): (m: string)
    ensures detail.Some? && detail.value != "" ==> m == detail.value
    ensures detail.None? || detail.value == "" ==> m == fallback
    ensures fallback != "" ==> m != ""
  {
    if detail.Some? && detail.value != "" then detail.value else fallback
  }

  /** The `err.message` a component's `catch` stores in its `error` field when a
      step fails: a rejected response throws `new Error(data.detail || fallback)`,
      anything else thrown keeps its own message. */
  function FailureMessage<T>(reply: Reply<T>, fallback: string): (m: string)
    requires !reply.Ok?
    ensures reply.Rejected? && fallback != "" ==> m != ""
    ensures reply.Rejected? && reply.detail.Some? && reply.detail.value != "" ==> m == reply.detail.value
    ensures reply.Rejected? && (reply.detail.None? || reply.detail.value == "") ==> m == fallback
    ensures reply.Thrown? ==> m == reply.message
  {
    match reply
    case Rejected(detail) => DetailOr(detail, fallback)
    case Thrown(message) => message
  }
}
