/**
 * The decision logic of the lenders proxy's request handler.
 *
 * The handler answers CORS preflights, throttles each client through the
 * rate limiter, checks that its two configuration values are set, and then
 * relays the spreadsheet service's answer. The transport, the environment
 * and the JSON encoding are abstract: the upstream answer is an input
 * value, the configuration two optional strings, and response bodies are
 * tagged values that keep the source's message texts.
 */
module Handler {
  import opened RateLimit

  datatype Option<T> = None | Some(value: T)

  /** The parts of an incoming request the handler looks at. */
  datatype Event = Event(httpMethod: string, headers: map<string, string>)

  /** The API key and spreadsheet identifier read from the environment. */
  datatype Config = Config(apiKey: Option<string>, spreadsheetId: Option<string>)

  /** How the upstream GET ended: a complete reply, or a transport error. */
  datatype Upstream = Reply(status: int, body: string) | NetErr(message: string)

  /** A response body, before JSON encoding. */
  datatype Body =
    | Empty
    | Raw(text: string)
    | Error(message: string)
    | ErrorWithDetails(message: string, details: string)

  datatype Response = Response(statusCode: int, headers: map<string, string>, body: Body)

  /** An upstream read the handler issued, with the values it was built from. */
  datatype Fetch = Fetch(spreadsheetId: string, apiKey: string)

  /** The response, the rate limiter's log afterwards, and the upstream read if one was made. */
  datatype Outcome = Outcome(response: Response, log: Log, fetched: Option<Fetch>)

  const CORS_HEADERS: map<string, string> := map[
    "Access-Control-Allow-Origin" := "*",
    "Access-Control-Allow-Headers" := "Content-Type",
    "Access-Control-Allow-Methods" := "GET, OPTIONS",
    "Content-Type" := "application/json"
  ]

  const TOO_MANY_REQUESTS: string := "Too many requests. Please try again later."
  const CONFIGURATION_ERROR: string := "Server configuration error"
  const FETCH_FAILED: string := "Failed to fetch data from Google Sheets"
  const NETWORK_ERROR_PREFIX: string := "Network error: "

  /** A JavaScript truthiness test on an optional string: set and not empty. */
  predicate IsSet(v: Option<string>) {
    v.Some? && v.value != ""
  }

  /** The value of header `name`, or the empty string when it is absent. */
  function Header(headers: map<string, string>, name: string): string {
    if name in headers then headers[name] else ""
  }

  /**
   * The rate-limit key of a request: the first non-empty of the
   * `x-forwarded-for` and `client-ip` headers, else `unknown`.
   */
  function ClientId(headers: map<string, string>): (ip: string)
    ensures ip != ""
    ensures Header(headers, "x-forwarded-for") != "" ==> ip == headers["x-forwarded-for"]
    ensures Header(headers, "x-forwarded-for") == "" && Header(headers, "client-ip") != "" ==>
      ip == headers["client-ip"]
    ensures Header(headers, "x-forwarded-for") == "" && Header(headers, "client-ip") == "" ==>
      ip == "unknown"
  {
    if Header(headers, "x-forwarded-for") != "" then headers["x-forwarded-for"]
    else if Header(headers, "client-ip") != "" then headers["client-ip"]
    else "unknown"
  }

  /**
   * The response built from the upstream answer: a 200 reply passes through
   * untouched; any other reply keeps its status and wraps its body as the
   * details of an error; a transport error becomes a 500.
   */
  function Relay(upstream: Upstream): (r: Response)
    ensures r.headers == CORS_HEADERS
    ensures r.body.Raw? <==> upstream.Reply? && upstream.status == 200
    ensures upstream.Reply? ==> r.statusCode == upstream.status
    ensures upstream.Reply? && upstream.status == 200 ==> r.body.text == upstream.body
    ensures upstream.Reply? && upstream.status != 200 ==>
      r.body == ErrorWithDetails(FETCH_FAILED, upstream.body)
    ensures upstream.NetErr? ==>
      r.statusCode == 500 && r.body == Error(NETWORK_ERROR_PREFIX + upstream.message)
    ensures r != Response(429, CORS_HEADERS, Error(TOO_MANY_REQUESTS))
    ensures r != Response(500, CORS_HEADERS, Error(CONFIGURATION_ERROR))
  {
    match upstream
    case Reply(status, body) =>
      if status == 200 then Response(200, CORS_HEADERS, Raw(body))
      else Response(status, CORS_HEADERS, ErrorWithDetails(FETCH_FAILED, body))
    case NetErr(message) =>
      assert (NETWORK_ERROR_PREFIX + message)[0] == 'N';
      Response(500, CORS_HEADERS, Error(NETWORK_ERROR_PREFIX + message))
  }

  /** Whether the request is a CORS preflight. */
  predicate IsPreflight(event: Event) {
    event.httpMethod == "OPTIONS"
  }

  /**
   * Handles one request at time `now` against the rate limiter's `log`,
   * given what the upstream read would return if it were made.
   */
  function Handle(event: Event, config: Config, upstream: Upstream, log: Log, now: int): (o: Outcome)
    ensures o.response.headers == CORS_HEADERS
    ensures IsPreflight(event) ==> o == Outcome(Response(200, CORS_HEADERS, Empty), log, None)
    ensures !IsPreflight(event) ==> o.log == Step(log, ClientId(event.headers), now).log
    ensures o.response == Response(429, CORS_HEADERS, Error(TOO_MANY_REQUESTS)) <==>
      !IsPreflight(event) && !Step(log, ClientId(event.headers), now).admitted
    ensures o.response == Response(500, CORS_HEADERS, Error(CONFIGURATION_ERROR)) <==>
      !IsPreflight(event) && Step(log, ClientId(event.headers), now).admitted &&
      !(IsSet(config.apiKey) && IsSet(config.spreadsheetId))
    ensures o.fetched.Some? <==>
      !IsPreflight(event) && Step(log, ClientId(event.headers), now).admitted &&
      IsSet(config.apiKey) && IsSet(config.spreadsheetId)
    ensures o.fetched.Some? ==>
      o.response == Relay(upstream) &&
      o.fetched.value == Fetch(config.spreadsheetId.value, config.apiKey.value)
  {
    if IsPreflight(event) then
      Outcome(Response(200, CORS_HEADERS, Empty), log, None)
    else
      var d := Step(log, ClientId(event.headers), now);
      if !d.admitted then
        Outcome(Response(429, CORS_HEADERS, Error(TOO_MANY_REQUESTS)), d.log, None)
      else if !IsSet(config.apiKey) || !IsSet(config.spreadsheetId) then
        Outcome(Response(500, CORS_HEADERS, Error(CONFIGURATION_ERROR)), d.log, None)
      else
        Outcome(Relay(upstream), d.log, Some(Fetch(config.spreadsheetId.value, config.apiKey.value)))
  }

  /**
   * A throttled request is answered before the configuration is read or the
   * upstream is reached: its outcome depends on neither.
   */
  lemma ThrottlingComesFirst(event: Event, c1: Config, c2: Config, u1: Upstream, u2: Upstream, log: Log, now: int)
    requires !IsPreflight(event) && !Step(log, ClientId(event.headers), now).admitted
    ensures Handle(event, c1, u1, log, now) == Handle(event, c2, u2, log, now)
    ensures Handle(event, c1, u1, log, now).log == log
  {
  }

  /**
   * A request with a missing API key or spreadsheet identifier never reaches
   * the upstream: its outcome does not depend on what the upstream would say.
   */
  lemma MissingConfigSkipsUpstream(event: Event, config: Config, u1: Upstream, u2: Upstream, log: Log, now: int)
    requires !(IsSet(config.apiKey) && IsSet(config.spreadsheetId))
    ensures Handle(event, config, u1, log, now) == Handle(event, config, u2, log, now)
    ensures Handle(event, config, u1, log, now).fetched == None
  {
  }

  /** One invocation of the handler: the request, the environment, the upstream's answer and the clock. */
  datatype Request = Request(event: Event, config: Config, upstream: Upstream, now: int)

  /** The responses to a series of invocations, and the rate limiter's log after the last one. */
  datatype Served = Served(responses: seq<Response>, log: Log)

  /** Handles `requests` one after the other, threading the rate limiter's log through them. */
  function HandleAll(requests: seq<Request>, log: Log): (s: Served)
    ensures |s.responses| == |requests|
    ensures log.Keys <= s.log.Keys
    decreases |requests|
  {
    if requests == [] then Served([], log)
    else
      var r := requests[0];
      var o := Handle(r.event, r.config, r.upstream, log, r.now);
      var rest := HandleAll(requests[1..], o.log);
      Served([o.response] + rest.responses, rest.log)
  }

  /** The rate-limit checks a series of invocations makes: one per request that is not a preflight. */
  function Checks(requests: seq<Request>): (calls: seq<Call>)
    ensures |calls| <= |requests|
    decreases |requests|
  {
    if requests == [] then []
    else
      var r := requests[0];
      (if IsPreflight(r.event) then [] else [Call(ClientId(r.event.headers), r.now)]) + Checks(requests[1..])
  }

  /**
   * The handler's effect on the rate limiter is exactly that of the checks
   * it makes: whatever the configuration and the upstream answers, the log
   * after a series of invocations is the log after their checks alone.
   */
  lemma {:induction false} HandleAllIsReplay(requests: seq<Request>, log: Log)
    ensures HandleAll(requests, log).log == Replay(log, Checks(requests)).log
    decreases |requests|
  {
    if requests != [] {
      var r := requests[0];
      var o := Handle(r.event, r.config, r.upstream, log, r.now);
      HandleAllIsReplay(requests[1..], o.log);
      if !IsPreflight(r.event) {
        var c := Call(ClientId(r.event.headers), r.now);
        assert Checks(requests)[0] == c && Checks(requests)[1..] == Checks(requests[1..]);
      } else {
        assert Checks(requests) == Checks(requests[1..]);
      }
    }
  }

  /**
   * Preflights never count against a client's quota: however many are
   * answered, at whatever times, the rate limiter's log is unchanged.
   */
  lemma {:induction false} PreflightsLeaveLog(requests: seq<Request>, log: Log)
    requires forall i :: 0 <= i < |requests| ==> IsPreflight(requests[i].event)
    ensures HandleAll(requests, log).log == log
    ensures forall i :: 0 <= i < |requests| ==> HandleAll(requests, log).responses[i] == Response(200, CORS_HEADERS, Empty)
    decreases |requests|
  {
    if requests != [] {
      PreflightsLeaveLog(requests[1..], log);
    }
  }
}
