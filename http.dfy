/**
 * The JSON bodies exchanged between the two forms and the Flask backend, and
 * what a `fetch` call can yield. Only the fields some party reads are kept.
 */
module Http {
  import opened Wrappers

  /** A JSON response body: each field is absent (`None`) or present. */
  datatype Body = Body(success: Option<bool>, status: Option<string>, message: Option<string>, error: Option<string>)

  /** The empty JSON object `{}`. */
  const EmptyBody := Body(None, None, None, None)

  /** An HTTP response as the server sends it. */
  datatype Reply = Reply(code: int, body: Body)

  /** What a thrown value is: an `Error` object with its message, or anything else. */
  datatype Thrown = ErrorObject(message: string) | NonError

  /**
   * The abstract outcome of `await fetch(...)` followed by `await response.json()`:
   * a parsed response with the `ok` flag, or a throw from either call.
   */
  datatype FetchOutcome = Responded(ok: bool, body: Body) | Threw(thrown: Thrown)

  /** `response.ok`: the status code lies in 200..299. */
  predicate IsOk(code: int) {
    200 <= code <= 299
  }

  /** The outcome the browser sees when the server answers with `r` and a JSON body. */
  function Deliver(r: Reply): (o: FetchOutcome)
    ensures o.Responded? && o.body == r.body
    ensures o.ok <==> 200 <= r.code < 300
  {
    Responded(IsOk(r.code), r.body)
  }

  /** JavaScript `m || fallback` where `m` is a string or `undefined`. */
  function OrElse(m: Option<string>, fallback: string): (r: string)
    ensures r == fallback || (m.Some? && r == m.value && r != "")
    ensures m.Some? && m.value != "" ==> r == m.value
  {
    if m.Some? && m.value != "" then m.value else fallback
  }

  /** A template-literal interpolation `${m}`: `undefined` prints as the word "undefined". */
  function Interpolate(m: Option<string>): (r: string)
    ensures m.Some? ==> r == m.value
    ensures m.None? ==> r == "undefined"
  {
    match m
    case Some(s) => s
    case None => "undefined"
  }
}

/** The toast both forms raise through `useToast`. */
module Toast {
  /** A toast: its title, its description and whether it is shown as destructive. */
  datatype Notification = Notification(title: string, description: string, destructive: bool)
}
