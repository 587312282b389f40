/** The API client: construction with options, the authenticated request
    and its status rule, and the request entry point. The HTTP transport,
    net/http's request constructor and the JSON text parser are inputs. */
module Clients {
  import opened Json
  import opened Errors
  import Retry
  import Logging

  const DefaultTimeout: int := 10 * 1_000_000_000

  /** The part of net/http's Client the package touches: its timeout, in
      nanoseconds. */
  class HttpClient {
    var timeout: int

    constructor (timeout: int)
      ensures this.timeout == timeout
    {
      this.timeout := timeout;
    }
  }

  /** Client. `retryConfig` and `logger` are the fields the retry and
      logging code read from it. */
  class Client {
    var host: string
    var token: string
    var httpClient: HttpClient?
    var retryConfig: Option<Retry.RetryConfig>
    var logger: Option<Logging.Logger>

    constructor (host: string, token: string, httpClient: HttpClient)
      ensures this.host == host && this.token == token && this.httpClient == httpClient
      ensures retryConfig.None? && logger.None?
    {
      this.host := host;
      this.token := token;
      this.httpClient := httpClient;
      retryConfig := None;
      logger := None;
    }

    /** Client.doRequest: the credentials go on the request, the transport
        answers, and only a 2xx status yields the body. Go sends through the
        HTTP client and panics when it is nil, hence the precondition. */
    function DoRequest(
      req: Request, httpMethod: string, endpoint: string,
      transport: Request -> Result<Response, string>, parse: string -> Option<Json>): (r: Result<string, Error>)
      reads this
      requires httpClient != null
      ensures var answer := transport(Authorized(token, req));
        && (r.Ok? <==> answer.Ok? && IsSuccessStatus(answer.value.statusCode))
        && (r.Ok? ==> r.value == answer.value.body)
        && (answer.Err? ==> r == Err(Transport(answer.error)))
        && (answer.Ok? && !IsSuccessStatus(answer.value.statusCode) ==>
              r == Err(API(ParseAPIError(answer.value.statusCode, httpMethod, endpoint, answer.value.body, parse(answer.value.body)))))
    {
      match transport(Authorized(token, req))
      case Err(e) => Err(Transport(e))
      case Ok(res) => CheckStatus(res.statusCode, httpMethod, endpoint, res.body, parse(res.body))
    }

    /** Client.RequestAPIWithContext (and RequestAPI, which only supplies a
        background context): build the request for host/endpoint, send it,
        and decode the body only when the caller supplies a target. */
    function RequestAPIWithContext<T>(
      httpMethod: string, endpoint: string, payload: Option<Json>,
      newRequestError: Request -> Option<string>,
      transport: Request -> Result<Response, string>, parse: string -> Option<Json>,
      decoder: Option<string -> Result<T, DecodeError>>): (r: Result<Option<T>, Error>)
      reads this
      requires httpClient != null
      ensures var req := NewRequest(httpMethod, host, endpoint, payload);
        var answer := DoRequest(req, httpMethod, endpoint, transport, parse);
        && (r.Ok? <==> newRequestError(req).None? && answer.Ok? && (decoder.None? || decoder.value(answer.value).Ok?))
        && (r.Ok? ==> (r.value.Some? <==> decoder.Some?))
        && (r.Ok? && decoder.Some? ==> r.value.value == decoder.value(answer.value).value)
        && (newRequestError(req).Some? ==> r == Err(InvalidRequest(newRequestError(req).value)))
        && (newRequestError(req).None? && answer.Err? ==> r == Err(answer.error))
        && (newRequestError(req).None? && answer.Ok? && decoder.Some? && decoder.value(answer.value).Err? ==>
              r == Err(Decode(decoder.value(answer.value).error)))
    {
      var req := NewRequest(httpMethod, host, endpoint, payload);
      if newRequestError(req).Some? then Err(InvalidRequest(newRequestError(req).value))
      else match DoRequest(req, httpMethod, endpoint, transport, parse)
        case Err(e) => Err(e)
        case Ok(body) =>
          if decoder.None? then Ok(None)
          else match decoder.value(body)
            case Err(e) => Err(Decode(e))
            case Ok(v) => Ok(Some(v))
    }
  }

  // ----- requests -----

  datatype Request = Request(httpMethod: string, url: string, headers: map<string, string>, body: Option<Json>)

  datatype Response = Response(statusCode: int, body: string)

  /** The request RequestAPIWithContext builds: host and endpoint joined by a
      slash, no headers yet, and the payload as body. */
  function NewRequest(httpMethod: string, host: string, endpoint: string, payload: Option<Json>): (r: Request)
    ensures |r.url| == |host| + 1 + |endpoint|
    ensures r.url[..|host|] == host && r.url[|host|] == '/' && r.url[|host| + 1..] == endpoint
    ensures r.httpMethod == httpMethod && r.headers == map[] && r.body == payload
  {
    Request(httpMethod, host + "/" + endpoint, map[], payload)
  }

  /** The headers doRequest sets before sending. */
  function Authorized(token: string, req: Request): (r: Request)
    ensures r.headers.Keys == req.headers.Keys + {"Authorization", "Content-Type"}
    ensures r.headers["Authorization"] == "FlespiToken " + token
    ensures r.headers["Content-Type"] == "application/json"
    ensures forall k :: k in req.headers && k != "Authorization" && k != "Content-Type" ==> r.headers[k] == req.headers[k]
    ensures r.httpMethod == req.httpMethod && r.url == req.url && r.body == req.body
  {
    req.(headers := req.headers["Authorization" := "FlespiToken " + token]["Content-Type" := "application/json"])
  }

  predicate IsSuccessStatus(statusCode: int)
  {
    200 <= statusCode < 300
  }

  /** The status rule of doRequest: a 2xx status returns the body, any other
      status the API error parsed from the body. */
  function CheckStatus(statusCode: int, httpMethod: string, endpoint: string, body: string, parsed: Option<Json>): (r: Result<string, Error>)
    ensures r.Ok? <==> IsSuccessStatus(statusCode)
    ensures r.Ok? ==> r.value == body
    ensures r.Err? ==> r.error.API? && r.error.api.statusCode == statusCode && r.error.api.rawBody == body
    ensures r.Err? ==> r.error.api.httpMethod == httpMethod && r.error.api.endpoint == endpoint
  {
    if statusCode < 200 || statusCode >= 300 then Err(API(ParseAPIError(statusCode, httpMethod, endpoint, body, parsed)))
    else Ok(body)
  }

  /** Every status from 200 to 299 succeeds, e.g. 201 and 204; a 404 is
      reported as not found and a 401 as unauthorized. */
  lemma StatusExamples(httpMethod: string, endpoint: string, body: string, parsed: Option<Json>)
    ensures CheckStatus(201, httpMethod, endpoint, body, parsed) == Ok(body)
    ensures CheckStatus(204, httpMethod, endpoint, body, parsed) == Ok(body)
    ensures IsNotFoundError(Some(CheckStatus(404, httpMethod, endpoint, body, parsed).error))
    ensures IsUnauthorizedError(Some(CheckStatus(401, httpMethod, endpoint, body, parsed).error))
    ensures !IsNotFoundError(Some(CheckStatus(500, httpMethod, endpoint, body, parsed).error))
  {
  }

  /** Whatever the outcome, the only request sent is the one for host/endpoint
      carrying the token; an API error always comes from a non-2xx answer to
      it, and a success from a 2xx answer. */
  lemma RequestAPIOutcomes<T>(
    c: Client, httpMethod: string, endpoint: string, payload: Option<Json>,
    newRequestError: Request -> Option<string>,
    transport: Request -> Result<Response, string>, parse: string -> Option<Json>,
    decoder: Option<string -> Result<T, DecodeError>>)
    requires c.httpClient != null
    ensures var r := c.RequestAPIWithContext(httpMethod, endpoint, payload, newRequestError, transport, parse, decoder);
      var sent := Authorized(c.token, NewRequest(httpMethod, c.host, endpoint, payload));
      && sent.url == c.host + "/" + endpoint
      && sent.headers["Authorization"] == "FlespiToken " + c.token
      && (r.Ok? ==> transport(sent).Ok? && IsSuccessStatus(transport(sent).value.statusCode))
      && (r.Err? && r.error.API? ==>
            transport(sent).Ok? && !IsSuccessStatus(transport(sent).value.statusCode)
            && r.error.api.statusCode == transport(sent).value.statusCode)
      && (r.Ok? && decoder.None? ==> r.value.None?)
  {
  }

  // ----- construction -----

  datatype ClientOption =
    | WithHTTPClient(client: HttpClient?)
    | WithTimeout(timeout: int)
    | WithRetryConfig(config: Option<Retry.RetryConfig>)
    | WithLogger(logger: Option<Logging.Logger>)

  /** EnableDebugLogging. */
  function EnableDebugLogging(): (o: ClientOption)
    ensures o.WithLogger? && o.logger.Some? && forall m, s :: Logging.Emit(o.logger.value, m, s).Some?
  {
    WithLogger(Some(Logging.NewStdLogger(Logging.LevelDebug)))
  }

  /** EnableInfoLogging. */
  function EnableInfoLogging(): (o: ClientOption)
    ensures o.WithLogger? && o.logger.Some?
    ensures forall m, s :: Logging.Emit(o.logger.value, m, s).Some? <==> m != Logging.DebugCall
  {
    WithLogger(Some(Logging.NewStdLogger(Logging.LevelInfo)))
  }

  /** The HTTP client in place: the default one, or the one given by a
      WithHTTPClient option. */
  datatype Target = DefaultClient | Given(client: HttpClient?)

  /** Which HTTP client the options leave in place. */
  function CurrentClient(opts: seq<ClientOption>): Target
  {
    if opts == [] then DefaultClient
    else if opts[|opts| - 1].WithHTTPClient? then Given(opts[|opts| - 1].client)
    else CurrentClient(opts[..|opts| - 1])
  }

  /** The timeout the last WithTimeout wrote while `target` was in place. */
  function TimeoutSet(opts: seq<ClientOption>, target: Target): Option<int>
  {
    if opts == [] then None
    else if opts[|opts| - 1].WithTimeout? && CurrentClient(opts[..|opts| - 1]) == target then Some(opts[|opts| - 1].timeout)
    else TimeoutSet(opts[..|opts| - 1], target)
  }

  function LastRetryConfig(opts: seq<ClientOption>): Option<Retry.RetryConfig>
  {
    if opts == [] then None
    else if opts[|opts| - 1].WithRetryConfig? then opts[|opts| - 1].config
    else LastRetryConfig(opts[..|opts| - 1])
  }

  function LastLogger(opts: seq<ClientOption>): Option<Logging.Logger>
  {
    if opts == [] then None
    else if opts[|opts| - 1].WithLogger? then opts[|opts| - 1].logger
    else LastLogger(opts[..|opts| - 1])
  }

  function OrElse(o: Option<int>, d: int): int
  {
    if o.Some? then o.value else d
  }

  /** WithTimeout dereferences the HTTP client in place, so it must not
      follow a WithHTTPClient(nil). */
  predicate NoTimeoutOnNil(opts: seq<ClientOption>)
  {
    forall j :: 0 <= j < |opts| && opts[j].WithTimeout? ==> CurrentClient(opts[..j]) != Given(null)
  }

  /** The caller's HTTP clients the options may change. */
  function Supplied(opts: seq<ClientOption>): set<HttpClient?>
  {
    set j | 0 <= j < |opts| && opts[j].WithHTTPClient? && opts[j].client != null :: opts[j].client
  }

  lemma {:induction false} CurrentIsSupplied(opts: seq<ClientOption>)
    requires CurrentClient(opts).Given? && CurrentClient(opts).client != null
    ensures CurrentClient(opts).client in Supplied(opts)
  {
    var n := |opts| - 1;
    if !opts[n].WithHTTPClient? {
      CurrentIsSupplied(opts[..n]);
      var j :| 0 <= j < n && opts[..n][j].WithHTTPClient? && opts[..n][j].client != null
        && opts[..n][j].client == CurrentClient(opts).client;
      assert opts[j] == opts[..n][j];
    }
  }

  /** NewClient: host and token, a fresh HTTP client with a 10 s timeout,
      then each option in order. A timeout lands on whichever HTTP client is
      in place when it is applied, so a caller's client is changed in place.
      It never fails. */
  method NewClient(host: string, token: string, options: seq<ClientOption>) returns (c: Client, err: Option<Error>)
    requires NoTimeoutOnNil(options)
    modifies Supplied(options)
    ensures fresh(c) && err.None?
    ensures c.host == host && c.token == token
    ensures c.retryConfig == LastRetryConfig(options) && c.logger == LastLogger(options)
    ensures CurrentClient(options).Given? ==> c.httpClient == CurrentClient(options).client
    ensures CurrentClient(options) == DefaultClient ==>
      c.httpClient != null && fresh(c.httpClient) && c.httpClient.timeout == OrElse(TimeoutSet(options, DefaultClient), DefaultTimeout)
    ensures forall h :: h in Supplied(options) ==> h.timeout == OrElse(TimeoutSet(options, Given(h)), old(h.timeout))
  {
    var standard := new HttpClient(DefaultTimeout);
    c := new Client(host, token, standard);
    var i := 0;
    while i < |options|
      invariant 0 <= i <= |options|
      invariant fresh(c) && fresh(standard)
      invariant c.host == host && c.token == token
      invariant c.retryConfig == LastRetryConfig(options[..i]) && c.logger == LastLogger(options[..i])
      invariant CurrentClient(options[..i]) == DefaultClient ==> c.httpClient == standard
      invariant CurrentClient(options[..i]).Given? ==> c.httpClient == CurrentClient(options[..i]).client
      invariant standard.timeout == OrElse(TimeoutSet(options[..i], DefaultClient), DefaultTimeout)
      invariant forall h :: h in Supplied(options) ==> h.timeout == OrElse(TimeoutSet(options[..i], Given(h)), old(h.timeout))
    {
      assert options[..i + 1][..i] == options[..i];
      match options[i] {
        case WithHTTPClient(h) =>
          c.httpClient := h;
        case WithTimeout(t) =>
          var current := CurrentClient(options[..i]);
          if current.Given? {
            CurrentIsSupplied(options[..i]);
            var j :| 0 <= j < i && options[..i][j].WithHTTPClient? && options[..i][j].client != null
              && options[..i][j].client == current.client;
            assert options[j] == options[..i][j];
          }
          c.httpClient.timeout := t;
        case WithRetryConfig(rc) =>
          c.retryConfig := rc;
        case WithLogger(l) =>
          c.logger := l;
      }
      i := i + 1;
    }
    assert options[..i] == options;
    err := None;
  }

  /** A timeout applies to the client in place when it is given and leaves
      the choice of client alone; a timeout given before WithHTTPClient does
      not reach the client given afterwards. */
  lemma TimeoutOrdering(opts: seq<ClientOption>, t: int, h: HttpClient)
    ensures CurrentClient(opts + [WithTimeout(t)]) == CurrentClient(opts)
    ensures TimeoutSet(opts + [WithTimeout(t)], CurrentClient(opts)) == Some(t)
    ensures CurrentClient([WithTimeout(t), WithHTTPClient(h)]) == Given(h)
    ensures TimeoutSet([WithTimeout(t), WithHTTPClient(h)], Given(h)).None?
  {
    assert (opts + [WithTimeout(t)])[..|opts|] == opts;
    assert [WithTimeout(t), WithHTTPClient(h)][..1] == [WithTimeout(t)];
    assert [WithTimeout(t)][..0] == [];
    assert TimeoutSet([WithTimeout(t)], Given(h)).None?;
  }
}
