/** One health probe of one endpoint (main.py, `check_health`). The HTTP request,
    the clock around it and `json.loads` are not modelled: what `json.loads`
    makes of the endpoint's body and how the request ends are given as values. */
module Probe {
  import opened Wrappers

  /** One configured endpoint; `None` stands for a key the YAML entry does not have. */
  datatype Endpoint = Endpoint(
    name: Option<string>,
    url: string,
    httpMethod: Option<string>,
    headers: Option<map<string, string>>,
    body: Option<string>)

  /** What `json.loads` makes of the endpoint's body: a value, which may be
      JSON `null` (Python's `None`), or a decode error with its message. It is
      consulted only when the body is non-empty. */
  datatype JsonParse = Parsed(isNull: bool) | DecodeError(message: string)

  /** The request `check_health` sends. The body is the JSON text that parsed
      (the library re-encodes the parsed value), or none: a body that parses to
      `null` becomes `json=None`, and then no body is sent at all. A parsed
      `NaN` or `Infinity` makes the library raise instead of sending; that is
      a `TransportError` outcome. */
  datatype Request = Request(
    httpMethod: string,
    url: string,
    headers: map<string, string>,
    json: Option<string>)

  /** How the request ended, with elapsed times in whole milliseconds. The
      elapsed time is a difference of two wall-clock readings, so it can be
      negative when the clock is set back during the request. */
  datatype RequestOutcome =
    | Timeout
    | TransportError(message: string)
    | Response(statusCode: int, elapsedMs: int)

  datatype Status = Up | Down

  /** The value `check_health` returns: `("UP", t)` or `("DOWN", t, reason)`. */
  datatype Health = Health(status: Status, elapsedMs: int, reason: Option<string>)

  /** The request timeout, 0.5 s. */
  const TimeoutMs: nat := 500

  const InvalidJsonPrefix: string := "Invalid JSON body: "
  const StatusOutOfRange: string := "Status code out of range"
  const TooSlow: string := "Response too slow"
  const TimeoutReason: string := "Timeout"

  predicate InRange(code: int) {
    200 <= code < 300
  }

  /** Python's truth value of an optional string: present and non-empty. */
  predicate Truthy(s: Option<string>) {
    s.Some? && s.value != []
  }

  /** Lines 30-43: fill in the defaults and parse the body when there is one.
      An error carries the `Invalid JSON body: ...` reason. */
  function PrepareRequest(e: Endpoint, bodyParse: JsonParse): (r: Result<Request, string>)
    ensures r.Err? <==> Truthy(e.body) && bodyParse.DecodeError?
    ensures r.Err? ==> r.error == InvalidJsonPrefix + bodyParse.message
    ensures r.Ok? ==> && r.value.url == e.url
                      && r.value.httpMethod == e.httpMethod.GetOr("GET")
                      && r.value.headers == e.headers.GetOr(map[])
                      && (r.value.json.Some? <==> Truthy(e.body) && !bodyParse.isNull)
                      && (r.value.json.Some? ==> r.value.json.value == e.body.value)
  {
    var parsed := e.body.Some? && e.body.value != [];
    if parsed && bodyParse.DecodeError? then
      Err(InvalidJsonPrefix + bodyParse.message)
    else
      var json := if parsed && !bodyParse.isNull then Some(e.body.value) else None;
      Ok(Request(e.httpMethod.GetOr("GET"), e.url, e.headers.GetOr(map[]), json))
  }

  /** Lines 45-65: classify the outcome of the request. */
  function Classify(o: RequestOutcome): (h: Health)
    ensures h.status == Up <==> o.Response? && InRange(o.statusCode) && o.elapsedMs <= TimeoutMs
    ensures h.status == Up <==> h.reason == None
    ensures o.Response? ==> h.elapsedMs == o.elapsedMs
    ensures o.Response? && !InRange(o.statusCode) ==> h.reason == Some(StatusOutOfRange)
    ensures o.Response? && InRange(o.statusCode) && o.elapsedMs > TimeoutMs ==> h.reason == Some(TooSlow)
    ensures o.Timeout? ==> h == Health(Down, TimeoutMs, Some(TimeoutReason))
    ensures o.TransportError? ==> h == Health(Down, 0, Some(o.message))
  {
    match o
    case Response(code, t) =>
      if InRange(code) && t <= TimeoutMs then Health(Up, t, None)
      else
        var reason := if code < 200 || code >= 300 then StatusOutOfRange else TooSlow;
        Health(Down, t, Some(reason))
    case Timeout => Health(Down, TimeoutMs, Some(TimeoutReason))
    case TransportError(msg) => Health(Down, 0, Some(msg))
  }

  /** `check_health(endpoint)`, with `o` the outcome the request would have. */
  function CheckHealth(e: Endpoint, bodyParse: JsonParse, o: RequestOutcome): (h: Health)
    ensures h.status == Up <==> h.reason == None
    ensures PrepareRequest(e, bodyParse).Err? ==>
      h == Health(Down, 0, Some(PrepareRequest(e, bodyParse).error))
    ensures PrepareRequest(e, bodyParse).Ok? ==> h == Classify(o)
  {
    match PrepareRequest(e, bodyParse)
    case Err(reason) => Health(Down, 0, Some(reason))
    case Ok(_) => Classify(o)
  }

  /** A body that fails to parse is DOWN at 0 ms with an `Invalid JSON body:`
      reason, and what the network would have answered plays no part: no
      request is sent. */
  lemma InvalidBodySendsNothing(e: Endpoint, bodyParse: JsonParse, o1: RequestOutcome, o2: RequestOutcome)
    requires Truthy(e.body) && bodyParse.DecodeError?
    ensures CheckHealth(e, bodyParse, o1) == CheckHealth(e, bodyParse, o2)
    ensures var h := CheckHealth(e, bodyParse, o1);
      h.status == Down && h.elapsedMs == 0 && h.reason.Some? &&
      InvalidJsonPrefix <= h.reason.value
  {
  }

  /** An absent or empty body is never parsed: the result is the outcome's
      classification whatever the parser would say. */
  lemma EmptyBodyNotParsed(e: Endpoint, bodyParse: JsonParse, other: JsonParse, o: RequestOutcome)
    requires !Truthy(e.body)
    ensures CheckHealth(e, bodyParse, o) == CheckHealth(e, other, o) == Classify(o)
    ensures PrepareRequest(e, bodyParse).Ok? && PrepareRequest(e, bodyParse).value.json == None
  {
  }

  /** A body that parses to JSON `null` is accepted but not sent: the request
      carries no body, and the result is the outcome's classification. */
  lemma NullBodySendsNoBody(e: Endpoint, o: RequestOutcome)
    requires Truthy(e.body)
    ensures PrepareRequest(e, Parsed(true)).Ok? && PrepareRequest(e, Parsed(true)).value.json == None
    ensures CheckHealth(e, Parsed(true), o) == Classify(o)
  {
  }

  /** An endpoint is UP exactly when its body is fine and the answer is a 2xx
      within 500 ms. */
  lemma UpIff(e: Endpoint, bodyParse: JsonParse, o: RequestOutcome)
    ensures CheckHealth(e, bodyParse, o).status == Up <==>
      && !(Truthy(e.body) && bodyParse.DecodeError?)
      && o.Response? && InRange(o.statusCode) && o.elapsedMs <= TimeoutMs
  {
  }
}
