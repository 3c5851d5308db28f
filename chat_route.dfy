/**
 * The `/api/chat` route: `POST` maps one request body and the outcome of one call to the
 * hosted text-generation endpoint to one `{role, content}` reply; `OPTIONS` answers the
 * CORS preflight. Nothing survives between requests. The outbound call is a parameter
 * `call` that maps the request the route sends to what comes back.
 */
module ChatRoute {
  import opened Wrappers

  /** The fixed generation budget sent with every prompt. */
  const MaxNewTokens: nat := 50

  /** Content when the upstream answered without a usable generated text. */
  const Greeting := "I'm here to help. What would you like to know?"

  /** Content on every failure path. */
  const Apology := "I apologize, but I'm having trouble processing your request. Please try again later."

  type Header = (string, string)

  /** The headers attached to both `POST` replies. */
  const PostHeaders: seq<Header> := [
    ("Access-Control-Allow-Origin", "*"),
    ("Access-Control-Allow-Methods", "POST, OPTIONS"),
    ("Access-Control-Allow-Headers", "Content-Type"),
    ("Content-Type", "application/json")
  ]

  /**
   * One element of the request's `messages` array: `null`/`undefined`, or any other value,
   * whose `content` member is a string or is absent.
   */
  datatype Entry = Null | Value(content: Option<string>)

  /**
   * The request body: not parseable as JSON (or not an object), or an object whose
   * `messages` member is an array or is absent/`null`.
   */
  datatype RequestBody = Unparseable | Parsed(messages: Option<seq<Entry>>)

  /** The JSON the route posts upstream; an absent `inputs` is `undefined`, dropped by `JSON.stringify`. */
  datatype Outbound = Outbound(inputs: Option<string>, maxNewTokens: nat, returnFullText: bool)

  /**
   * What the upstream answered, once parsed: not JSON, JSON `null`, a JSON number, string or
   * boolean, a JSON object (its `error` member, if a string), or a JSON array whose elements
   * carry a string `generated_text` or not (`None` also covers a `null` element).
   */
  datatype UpstreamBody =
    | NotJson
    | JsonNull
    | Scalar
    | Object(error: Option<string>)
    | Array(generations: seq<Option<string>>)

  /** The outcome of the outbound `fetch`: it threw, or a response arrived (its status is not looked at). */
  datatype Upstream = FetchFailed | Answered(body: UpstreamBody)

  /** A reply of the route. */
  datatype Reply = Reply(status: nat, role: string, content: string, headers: seq<Header>)

  /** The `OPTIONS` reply: an empty body and headers. */
  datatype Preflight = Preflight(status: nat, headers: seq<Header>)

  /**
   * The request sent upstream, or `None` when reading `messages[messages.length - 1].content`
   * throws: an unparseable body, no `messages`, an empty array, or a `null` last element.
   * Only the last element's `content` is sent, always with the same generation parameters.
   */
  function Forwarded(body: RequestBody): (r: Option<Outbound>)
    ensures r.Some? <==>
      body.Parsed? && body.messages.Some? && |body.messages.value| > 0 && Last(body.messages.value).Value?
    ensures r.Some? ==>
      r.value == Outbound(Last(body.messages.value).content, MaxNewTokens, false)
  {
    match body
    case Unparseable => None
    case Parsed(None) => None
    case Parsed(Some(messages)) =>
      if |messages| == 0 then None
      else match messages[|messages| - 1]
        case Null => None
        case Value(content) => Some(Outbound(content, MaxNewTokens, false))
  }

  function Last(messages: seq<Entry>): Entry
    requires |messages| > 0
  {
    messages[|messages| - 1]
  }

  /**
   * The upstream outcome throws inside the `try`: the fetch or the JSON parse failed,
   * reading `result.error` of `null` failed, or a truthy `error` came back.
   */
  predicate Throws(u: Upstream)
    ensures u.FetchFailed? || u == Answered(NotJson) || u == Answered(JsonNull) ==> Throws(u)
    ensures u == Answered(Scalar) || (u.Answered? && u.body.Array?) ==> !Throws(u)
    ensures u.Answered? && u.body.Object? ==> (Throws(u) <==> u.body.error.Some? && u.body.error.value != "")
  {
    match u
    case FetchFailed => true
    case Answered(NotJson) => true
    case Answered(JsonNull) => true
    case Answered(Scalar) => false
    case Answered(Object(error)) => error.Some? && error.value != ""
    case Answered(Array(_)) => false
  }

  /** `result[0]?.generated_text` when it is truthy, i.e. a non-empty string. */
  function FirstText(u: Upstream): (t: Option<string>)
    ensures t.Some? ==> t.value != "" && u.Answered? && u.body.Array? && |u.body.generations| > 0
                        && u.body.generations[0] == t
    ensures t.None? && u.Answered? && u.body.Array? && |u.body.generations| > 0 ==>
              u.body.generations[0] in {None, Some("")}
  {
    match u
    case Answered(Array(generations)) =>
      if |generations| > 0 && generations[0].Some? && generations[0].value != "" then generations[0] else None
    case _ => None
  }

  /** The reply built from an upstream outcome: the apology on a throw, else the generated text or the greeting. */
  function Respond(u: Upstream): (r: Reply)
    ensures r.status == 200 && r.role == "assistant" && r.headers == PostHeaders
    ensures Throws(u) ==> r.content == Apology
    ensures !Throws(u) && FirstText(u).Some? ==> r.content == FirstText(u).value
    ensures !Throws(u) && FirstText(u).None? ==> r.content == Greeting
  {
    if Throws(u) then Reply(200, "assistant", Apology, PostHeaders)
    else Reply(200, "assistant", FirstText(u).GetOr(Greeting), PostHeaders)
  }

  /** `POST /api/chat`: every path answers 200 with role "assistant" and the same headers. */
  function Post(body: RequestBody, call: Outbound -> Upstream): (r: Reply)
    ensures r.status == 200 && r.role == "assistant" && r.headers == PostHeaders
    ensures Forwarded(body).None? ==> r.content == Apology
    ensures Forwarded(body).Some? ==> r == Respond(call(Forwarded(body).value))
  {
    match Forwarded(body)
    case None => Reply(200, "assistant", Apology, PostHeaders)
    case Some(outbound) => Respond(call(outbound))
  }

  /** `OPTIONS /api/chat`: the `POST` headers except the content type. */
  function Options(): (r: Preflight)
    ensures r.status == 200
    ensures forall h :: h in r.headers <==> h in PostHeaders && h.0 != "Content-Type"
  {
    Preflight(200, PostHeaders[..3])
  }

  /** An upstream `error` is never relayed: the reply is the apology, whatever the error says. */
  lemma UpstreamErrorIsHidden(body: RequestBody, call: Outbound -> Upstream, error: string)
    requires Forwarded(body).Some? && call(Forwarded(body).value) == Answered(Object(Some(error)))
    requires error != ""
    ensures Post(body, call).content == Apology
    ensures error != Apology ==> Post(body, call).content != error
  {
  }

  /** A non-empty first `generated_text` is relayed verbatim. */
  lemma GeneratedTextIsRelayed(body: RequestBody, call: Outbound -> Upstream, text: string, rest: seq<Option<string>>)
    requires Forwarded(body).Some? && call(Forwarded(body).value) == Answered(Array([Some(text)] + rest))
    requires text != ""
    ensures Post(body, call) == Reply(200, "assistant", text, PostHeaders)
  {
  }

  /** An empty array, or a first element without a non-empty `generated_text`, gives the greeting. */
  lemma MissingTextGivesGreeting(body: RequestBody, call: Outbound -> Upstream)
    requires Forwarded(body).Some? && call(Forwarded(body).value).Answered?
    requires call(Forwarded(body).value).body.Array?
    requires FirstText(call(Forwarded(body).value)).None?
    ensures Post(body, call).content == Greeting
  {
  }

  /**
   * Only the last message matters: two histories with the same last element get the same
   * reply, whatever came before it and whatever the upstream does.
   */
  lemma {:induction false} OnlyLastMessageMatters(earlier1: seq<Entry>, earlier2: seq<Entry>, last: Entry, call: Outbound -> Upstream)
    ensures Post(Parsed(Some(earlier1 + [last])), call) == Post(Parsed(Some(earlier2 + [last])), call)
  {
    assert Last(earlier1 + [last]) == last;
    assert Last(earlier2 + [last]) == last;
  }

  /** A JSON `null` answer throws and gets the apology; a number, string or boolean answer gets the greeting. */
  lemma NonObjectAnswers(body: RequestBody, call: Outbound -> Upstream)
    requires Forwarded(body).Some?
    ensures call(Forwarded(body).value) == Answered(JsonNull) ==> Post(body, call).content == Apology
    ensures call(Forwarded(body).value) == Answered(Scalar) ==> Post(body, call).content == Greeting
  {
  }

  /** A body that does not carry a non-empty `messages` array is answered with the apology, not an error. */
  lemma MissingMessagesGivesApology(call: Outbound -> Upstream)
    ensures Post(Unparseable, call).content == Apology
    ensures Post(Parsed(None), call).content == Apology
    ensures Post(Parsed(Some([])), call).content == Apology
  {
  }
}
