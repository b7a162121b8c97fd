/** What one call of `get` does on the wire: the outbound GET with the
    current bearer token, the single token refresh and re-issue after a 401
    when retrying is allowed, and the settling of the response into a body
    or an error. The catalog server and the token endpoint are oracles
    (`World`); `Fetch` is the trace one call leaves behind. */
module Http {
  import opened Json

  datatype Request = Request(url: string, authorization: string)

  datatype Response = Response(status: int, body: Value)

  /** The outside world: `respond(req, n)` is the answer to the n-th GET the
      process sends (a rejected fetch is an `Err`), `authorize(k)` the
      `access_token` field of the k-th token exchange (undefined when the
      body lacks it; `Err` when the exchange is rejected). */
  datatype World = World(
    respond: (Request, nat) -> Result<Response>,
    authorize: nat -> Result<Value>)

  /** What one call leaves behind: its outcome, the token afterwards, the
      requests it sent in order, and the number of token exchanges it made. */
  datatype Trace = Trace(result: Result<Value>, token: Value, requests: seq<Request>, exchanges: nat)

  const Unauthorized: int := 401

  /** `response.ok` of the Fetch Standard: a status in 200-299. */
  predicate Succeeded(resp: Response)
  {
    200 <= resp.status <= 299
  }

  /** The `Authorization` header: `'Bearer ' + token`. */
  function Bearer(token: Value): string
  {
    "Bearer " + ToStr(token)
  }

  /** `new Error(m).message`: "" for undefined, ToString otherwise. */
  function ErrorText(m: Value): string
  {
    if m.Undefined? then "" else ToStr(m)
  }

  /** The non-retry path: return the parsed body of an ok response,
      otherwise throw an error carrying `json.error.message`. */
  function Settle(resp: Response): (r: Result<Value>)
    ensures r.Ok? <==> Succeeded(resp)
    ensures r.Ok? ==> r.value == resp.body
    ensures !Succeeded(resp) && !Nullish(resp.body) && !Nullish(Field(resp.body, "error")) ==>
      r == Err(Upstream(ErrorText(Field(Field(resp.body, "error"), "message"))))
    ensures !Succeeded(resp) && (Nullish(resp.body) || Nullish(Field(resp.body, "error"))) ==>
      r == Err(TypeError)
  {
    if Succeeded(resp) then Ok(resp.body)
    else
      match Prop(resp.body, "error")
      case Err(e) => Err(e)
      case Ok(error) =>
        match Prop(error, "message")
        case Err(e) => Err(e)
        case Ok(message) => Err(Upstream(ErrorText(message)))
  }

  /** One call `get(suffix, params, retry)` whose URL is `url`, made while
      the shared token is `token`, `sent` requests and `exchanged` token
      exchanges into the life of the process. */
  function Fetch(w: World, token: Value, url: string, retry: bool, sent: nat, exchanged: nat): (t: Trace)
    ensures 1 <= |t.requests| <= 2 && t.exchanges <= 1
    ensures |t.requests| == 2 ==> t.exchanges == 1
    ensures forall i :: 0 <= i < |t.requests| ==> t.requests[i].url == url
    ensures t.requests[0].authorization == Bearer(token)
    ensures t.exchanges == 1 <==>
      retry && w.respond(t.requests[0], sent).Ok? && w.respond(t.requests[0], sent).value.status == Unauthorized
    ensures t.token != token ==> t.exchanges == 1 && w.authorize(exchanged) == Ok(t.token)
    ensures t.exchanges == 1 && w.authorize(exchanged).Ok? ==>
      && t.token == w.authorize(exchanged).value
      && |t.requests| == 2
      && t.requests[1] == Request(url, Bearer(w.authorize(exchanged).value))
    ensures t.exchanges == 1 && w.authorize(exchanged).Err? ==>
      t.result == Err(w.authorize(exchanged).error) && t.token == token && |t.requests| == 1
    ensures t.exchanges == 0 ==>
      && t.token == token && |t.requests| == 1
      && t.result == (if w.respond(t.requests[0], sent).Ok? then Settle(w.respond(t.requests[0], sent).value)
                      else Err(w.respond(t.requests[0], sent).error))
    ensures |t.requests| == 2 ==> t.requests[1].authorization == Bearer(t.token)
    ensures |t.requests| == 2 ==>
      t.result == (if w.respond(t.requests[1], sent + 1).Ok? then Settle(w.respond(t.requests[1], sent + 1).value)
                   else Err(w.respond(t.requests[1], sent + 1).error))
    decreases retry
  {
    var req := Request(url, Bearer(token));
    match w.respond(req, sent)
    case Err(e) => Trace(Err(e), token, [req], 0)
    case Ok(resp) =>
      if resp.status == Unauthorized && retry then
        match w.authorize(exchanged)
        case Err(e) => Trace(Err(e), token, [req], 1)
        case Ok(renewed) =>
          var again := Fetch(w, renewed, url, false, sent + 1, exchanged + 1);
          Trace(again.result, again.token, [req] + again.requests, 1)
      else
        Trace(Settle(resp), token, [req], 0)
  }

  /** A call that may not retry sends one request, refreshes nothing and
      settles the one response it gets. */
  lemma NoRetrySettlesOnce(w: World, token: Value, url: string, sent: nat, exchanged: nat)
    ensures var t := Fetch(w, token, url, false, sent, exchanged);
      var reply := w.respond(Request(url, Bearer(token)), sent);
      && |t.requests| == 1 && t.exchanges == 0 && t.token == token
      && t.result == (if reply.Ok? then Settle(reply.value) else Err(reply.error))
  {
  }

  /** A 401 followed, after one token exchange, by an ok response: the result
      is that response's body, the new token stays, two requests were sent. */
  lemma RefreshThenSucceed(w: World, token: Value, url: string, sent: nat, exchanged: nat, renewed: Value, body: Value)
    requires w.respond(Request(url, Bearer(token)), sent).Ok?
    requires w.respond(Request(url, Bearer(token)), sent).value.status == Unauthorized
    requires w.authorize(exchanged) == Ok(renewed)
    requires w.respond(Request(url, Bearer(renewed)), sent + 1).Ok?
    requires Succeeded(w.respond(Request(url, Bearer(renewed)), sent + 1).value)
    requires w.respond(Request(url, Bearer(renewed)), sent + 1).value.body == body
    ensures var t := Fetch(w, token, url, true, sent, exchanged);
      t.result == Ok(body) && t.token == renewed && t.exchanges == 1
      && t.requests == [Request(url, Bearer(token)), Request(url, Bearer(renewed))]
  {
  }

  /** A retrying call whose first reply is not a 401 settles that reply:
      the body of an ok reply, otherwise its `error.message`; the token is
      left alone and nothing is sent again. */
  lemma FirstReplySettles(w: World, token: Value, url: string, sent: nat, exchanged: nat)
    requires w.respond(Request(url, Bearer(token)), sent).Ok?
    requires w.respond(Request(url, Bearer(token)), sent).value.status != Unauthorized
    ensures var t := Fetch(w, token, url, true, sent, exchanged);
      && t.result == Settle(w.respond(Request(url, Bearer(token)), sent).value)
      && t.token == token && t.exchanges == 0 && |t.requests| == 1
  {
  }

  /** A 401 followed by a failed token exchange: the call rejects with that
      failure after one request, and the token is left alone. */
  lemma ExchangeFails(w: World, token: Value, url: string, sent: nat, exchanged: nat)
    requires w.respond(Request(url, Bearer(token)), sent).Ok?
    requires w.respond(Request(url, Bearer(token)), sent).value.status == Unauthorized
    requires w.authorize(exchanged).Err?
    ensures var t := Fetch(w, token, url, true, sent, exchanged);
      && t.result == Err(w.authorize(exchanged).error)
      && t.token == token && t.exchanges == 1 && t.requests == [Request(url, Bearer(token))]
  {
  }

  /** Two 401s in a row: the call fails with the second reply's settlement
      (`error.message`, never its body) after exactly one token exchange
      and two requests; there is no third attempt. */
  lemma SecondUnauthorizedFails(w: World, token: Value, url: string, sent: nat, exchanged: nat, renewed: Value)
    requires w.respond(Request(url, Bearer(token)), sent).Ok?
    requires w.respond(Request(url, Bearer(token)), sent).value.status == Unauthorized
    requires w.authorize(exchanged) == Ok(renewed)
    requires w.respond(Request(url, Bearer(renewed)), sent + 1).Ok?
    requires w.respond(Request(url, Bearer(renewed)), sent + 1).value.status == Unauthorized
    ensures var t := Fetch(w, token, url, true, sent, exchanged);
      && t.result == Settle(w.respond(Request(url, Bearer(renewed)), sent + 1).value)
      && t.result.Err? && t.exchanges == 1 && |t.requests| == 2 && t.token == renewed
  {
  }
}
