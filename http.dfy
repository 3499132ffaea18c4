/**
 * What the views see of the HTTP client. The client itself (src/utils/api) is not
 * part of this model: a request's outcome is an input to the view that sent it, and
 * everything a view does to the outside world (a request, an alert, a confirmation
 * dialog, a navigation) is recorded as an effect in the order it happens.
 */
module Http {
  import opened Types

  /** A failed request: the server's `message` field, if the server sent one, and the error's own message. */
  datatype HttpError = HttpError(serverMessage: Option<string>, message: string)

  /** The outcome of one request: the response body, or the error it was rejected with. */
  datatype Outcome<+B> = Ok(body: B) | Failed(error: HttpError)

  /**
   * The shape of a list response's `data`: absent (null or undefined), a bare array,
   * an object whose list field (`issues` or `users`) is an array, or anything else.
   */
  datatype ListBody<+T> = NoBody | BareArray(items: seq<T>) | Keyed(keyed: seq<T>) | OtherShape

  /** A request the client sends, with its body where it has one. */
  datatype Request<+B> = Get(path: string) | Post(path: string, body: B) | Put(path: string, body: B) | Delete(path: string)

  /** A side effect of a view, in the order the view performs it. */
  datatype Effect<+B> = Sent(request: Request<B>) | Alerted(message: string) | AskedConfirm | NavigatedTo(target: string)

  /** JavaScript truthiness of a string that may be missing: present and non-empty. */
  predicate Truthy(s: Option<string>)
  {
    s.Some? && s.value != ""
  }

  /** The API path of one issue: issues are addressed by title. */
  function IssuePath(title: string): string
  {
    "/issue/" + title
  }

  /** The client-side route of the issue list, where creating or deleting an issue leads. */
  const IssuesRoute := "/issues"

  /** Whether a list of effects contains a request of any kind. */
  predicate SendsRequest<B>(effects: seq<Effect<B>>)
  {
    exists i :: 0 <= i < |effects| && effects[i].Sent?
  }
}
