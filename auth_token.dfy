/** The HTTP client's default headers and `setAuthToken` (src/utils/setAuthToken.ts). */
module AuthToken {

  const Authorization := "Authorization"
  const Bearer := "Bearer "

  /**
   * The default-header map after `setAuthToken(token)` on `headers`: a non-empty token
   * sets the bearer header, an empty one deletes the key, and no other header moves.
   */
  function WithToken(headers: map<string, string>, token: string): (r: map<string, string>)
    ensures token != "" ==> Authorization in r && r[Authorization] == Bearer + token
    ensures token == "" ==> Authorization !in r
    ensures forall k :: k != Authorization ==> (k in r <==> k in headers)
    ensures forall k :: k in r && k != Authorization ==> r[k] == headers[k]
  {
    if token != "" then headers[Authorization := Bearer + token]
    else headers - {Authorization}
  }

  /** Setting the same token twice is the same as setting it once. */
  lemma WithTokenIdempotent(headers: map<string, string>, token: string)
    ensures WithToken(WithToken(headers, token), token) == WithToken(headers, token)
  {
  }

  /** The last token set wins: whatever was set before it leaves no trace. */
  lemma WithTokenLastWins(headers: map<string, string>, first: string, second: string)
    ensures WithToken(WithToken(headers, first), second) == WithToken(headers, second)
  {
  }

  /** The page-wide HTTP client whose default headers go out with every request. */
  class ApiClient {
    var headers: map<string, string>

    /**
     * A client as the page loads it: `defaults` are whatever default headers the client
     * module configures, which is not part of this model.
     */
    constructor (defaults: map<string, string>)
      ensures headers == defaults
    {
      headers := defaults;
    }

    /** `setAuthToken`: assign or delete the Authorization default header in place. */
    method SetAuthToken(token: string)
      modifies this
      ensures headers == WithToken(old(headers), token)
    {
      if token != "" {
        headers := headers[Authorization := Bearer + token];
      } else {
        headers := headers - {Authorization};
      }
    }
  }
}
