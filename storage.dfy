/** The browser's durable key-value store, reduced to the one entry the client
    uses: the bearer token under the key "token". */
module Storage {
  import opened Api

  /** `localStorage` entry "token": `None` when `getItem` returns null. */
  class TokenSlot {
    var token: Option<string>

    constructor (initial: Option<string>)
      ensures token == initial
    {
      token := initial;
    }
  }

  /** JavaScript truthiness of `localStorage.getItem("token")`: null and the
      empty string are falsy, every other string is truthy. */
  predicate Truthy(token: Option<string>): (truthy: bool)
    ensures truthy ==> token.Some? && |token.value| > 0
    ensures token.None? || token == Some("") ==> !truthy
  {
    token.Some? && token.value != ""
  }
}
