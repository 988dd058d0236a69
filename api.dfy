/** The configured axios instance of src/services/api.js: a request
    interceptor that attaches the stored access token, a response interceptor
    that answers a first 401 by renewing the access token once and replaying
    the request through bare axios, and the table of endpoint paths.

    The network is an oracle `Backend` from the request that reaches it to the
    reply the server gives; `window.location.href` is the recorded `location`. */
module Api {
  import opened Wrappers
  import opened Json
  import JsText
  import opened Storage

  /** `API_URL`, the instance's `baseURL` */
  const ApiUrl := "http://localhost:8000/api"
  /** the URL the response interceptor posts the refresh token to */
  const RefreshUrl := ApiUrl + "/users/token/refresh/"
  /** the instance's default headers */
  const DefaultHeaders: map<string, string> := map["Content-Type" := "application/json"]
  /** where a failed renewal sends the browser */
  const LoginPage := "/login"

  datatype Verb = Get | Post | Put | Delete

  /** What reaches the network: method, full URL, headers and body */
  datatype Request = Request(verb: Verb, url: string, headers: map<string, string>, data: Option<Json>)

  /** The server's answer: a status code and the parsed body */
  datatype Reply = Reply(status: int, data: Json)

  /** axios's default `validateStatus`: only 2xx replies resolve */
  predicate IsSuccess(status: int) {
    200 <= status < 300
  }

  /** Why a promise rejects: an axios error carrying the request and the
      reply, or a TypeError raised by the client code itself */
  datatype Rejection = HttpError(request: Request, response: Reply) | TypeError(message: string)

  /** How the promise returned for a request settles */
  datatype Outcome = Resolved(response: Reply) | Rejected(reason: Rejection)

  type Backend = Request -> Reply

  /** What the client keeps in the browser: the two stored tokens and the
      location it last forced */
  datatype ClientState = ClientState(tokens: Tokens, location: Option<string>)

  /** One request's whole exchange: how it settles, the client state after it,
      the final `_retry` flag and the requests sent, in order */
  datatype Exchange = Exchange(outcome: Outcome, state: ClientState, retried: bool, sent: seq<Request>)

  function Bearer(token: string): string {
    "Bearer " + token
  }

  /** The request interceptor's effect on the headers: a stored, non-empty
      access token becomes the Authorization header; otherwise nothing changes */
  function Authorize(headers: map<string, string>, token: Option<string>): map<string, string> {
    if IsSet(token) then headers["Authorization" := Bearer(token.value)] else headers
  }

  /** The renewal call: a bare-axios POST of `{refresh: refreshToken}`, where a
      missing token is sent as null */
  function RefreshRequest(refresh: Option<string>): Request {
    var token := if refresh.Some? then JStr(refresh.value) else JNull;
    Request(Post, RefreshUrl, DefaultHeaders, Some(JObj(map["refresh" := token])))
  }

  /** `const { access } = response.data`, as the string `setItem` stores:
      destructuring null throws a TypeError, a missing field stores "undefined" */
  function RenewedAccess(data: Json): Result<string, Rejection> {
    if data.JNull? then Thrown(TypeError("Cannot destructure property 'access' of null"))
    else Ok(Stringify(Property(data, "access")))
  }

  /** The response interceptor's error handler for a request `sent` that the
      server answered with the failing `reply`; `retried` is its `_retry` flag. */
  function HandleFailure(s: ClientState, sent: Request, reply: Reply, retried: bool, backend: Backend): (e: Exchange)
    ensures e.retried <==> retried || reply.status == 401
    ensures e.sent == [] <==> reply.status != 401 || retried
    ensures e.sent == [] ==> e.state == s && e.outcome == Rejected(HttpError(sent, reply))
    ensures e.sent != [] ==> |e.sent| <= 2 && e.sent[0] == RefreshRequest(s.tokens.refresh)
    ensures e.state.tokens == NoTokens || e.state.tokens.refresh == s.tokens.refresh
  {
    if reply.status != 401 || retried then
      Exchange(Rejected(HttpError(sent, reply)), s, retried, [])
    else
      var renewal := RefreshRequest(s.tokens.refresh);
      var renewed := backend(renewal);
      var access := if IsSuccess(renewed.status) then RenewedAccess(renewed.data)
                    else Thrown(HttpError(renewal, renewed));
      match access
      case Thrown(refreshError) =>
        Exchange(Rejected(refreshError), ClientState(NoTokens, Some(LoginPage)), true, [renewal])
      case Ok(token) =>
        var replay := sent.(headers := sent.headers["Authorization" := Bearer(token)]);
        var answer := backend(replay);
        var outcome := if IsSuccess(answer.status) then Resolved(answer) else Rejected(HttpError(replay, answer));
        Exchange(outcome, s.(tokens := s.tokens.(access := Some(token))), true, [renewal, replay])
  }

  /** One call through the instance: `request` is the config as built, before
      the request interceptor runs, and `retried` its `_retry` flag. */
  function Transmit(s: ClientState, request: Request, retried: bool, backend: Backend): (e: Exchange)
    ensures 1 <= |e.sent| <= 3
    ensures e.sent[0] == request.(headers := Authorize(request.headers, s.tokens.access))
    ensures e.outcome.Resolved? ==> IsSuccess(e.outcome.response.status)
    ensures IsSuccess(backend(e.sent[0]).status) <==> |e.sent| == 1 && e.outcome.Resolved?
  {
    var first := request.(headers := Authorize(request.headers, s.tokens.access));
    var reply := backend(first);
    if IsSuccess(reply.status) then Exchange(Resolved(reply), s, retried, [first])
    else
      var f := HandleFailure(s, first, reply, retried, backend);
      f.(sent := [first] + f.sent)
  }

  // ---------------------------------------------------------------------
  // Properties of the pipeline

  /** The request phase: with a stored non-empty access token the request goes
      out with `Authorization: Bearer <token>`, otherwise with its headers
      untouched; method, URL and body are the config's. */
  lemma OutgoingRequestCarriesToken(s: ClientState, request: Request, retried: bool, backend: Backend)
    ensures var e := Transmit(s, request, retried, backend);
      && |e.sent| >= 1
      && e.sent[0].verb == request.verb && e.sent[0].url == request.url && e.sent[0].data == request.data
      && (IsSet(s.tokens.access) ==> e.sent[0].headers == request.headers["Authorization" := "Bearer " + s.tokens.access.value])
      && (!IsSet(s.tokens.access) ==> e.sent[0].headers == request.headers)
  {
  }

  /** A successful reply is handed back as it came, and nothing is stored,
      removed, redirected or re-sent */
  lemma SuccessPassesThrough(s: ClientState, request: Request, retried: bool, backend: Backend)
    requires IsSuccess(backend(request.(headers := Authorize(request.headers, s.tokens.access))).status)
    ensures var e := Transmit(s, request, retried, backend);
      e.outcome == Resolved(backend(e.sent[0])) && e.state == s && e.retried == retried && |e.sent| == 1
  {
  }

  /** A failure other than 401, or a 401 on a request already marked `_retry`,
      is rejected with its own error, with no renewal and no state change */
  lemma OtherFailuresPropagate(s: ClientState, request: Request, retried: bool, backend: Backend)
    requires var reply := backend(request.(headers := Authorize(request.headers, s.tokens.access)));
      !IsSuccess(reply.status) && (reply.status != 401 || retried)
    ensures var e := Transmit(s, request, retried, backend);
      && |e.sent| == 1
      && e.outcome == Rejected(HttpError(e.sent[0], backend(e.sent[0])))
      && e.state == s && e.retried == retried
  {
  }

  /** A first 401 marks the request `_retry` and makes exactly one renewal
      call, carrying the stored refresh token; nothing else is sent but, at
      most, the one replay */
  lemma FirstUnauthorizedRenewsOnce(s: ClientState, request: Request, backend: Backend)
    requires backend(request.(headers := Authorize(request.headers, s.tokens.access))).status == 401
    ensures var e := Transmit(s, request, false, backend);
      && e.retried
      && 2 <= |e.sent| <= 3
      && e.sent[1] == RefreshRequest(s.tokens.refresh)
      && e.sent[1].url == RefreshUrl
      && (|e.sent| == 3 ==> e.sent[2].url == request.url)
  {
  }

  /** A renewal that succeeds overwrites only the access token, replays the
      request with only its Authorization header replaced, and settles with the
      replay's own reply: a second 401 is not intercepted again */
  lemma RenewalSuccessReplaysOnce(s: ClientState, request: Request, backend: Backend)
    requires backend(request.(headers := Authorize(request.headers, s.tokens.access))).status == 401
    requires var renewed := backend(RefreshRequest(s.tokens.refresh));
      IsSuccess(renewed.status) && !renewed.data.JNull?
    ensures var e := Transmit(s, request, false, backend);
      var access := Stringify(Property(backend(RefreshRequest(s.tokens.refresh)).data, "access"));
      && |e.sent| == 3
      && e.state.tokens == Tokens(Some(access), s.tokens.refresh)
      && e.state.location == s.location
      && e.sent[2] == e.sent[0].(headers := e.sent[0].headers["Authorization" := Bearer(access)])
      && var answer := backend(e.sent[2]);
         e.outcome == if IsSuccess(answer.status) then Resolved(answer) else Rejected(HttpError(e.sent[2], answer))
  {
  }

  /** A renewal that fails removes both tokens, sends the browser to /login and
      rejects with the renewal's error, never the original 401 */
  lemma RenewalFailureSignsOut(s: ClientState, request: Request, backend: Backend)
    requires backend(request.(headers := Authorize(request.headers, s.tokens.access))).status == 401
    requires var renewed := backend(RefreshRequest(s.tokens.refresh));
      !IsSuccess(renewed.status) || renewed.data.JNull?
    ensures var e := Transmit(s, request, false, backend);
      && |e.sent| == 2
      && e.state == ClientState(NoTokens, Some(LoginPage))
      && !IsSet(e.state.tokens.access)
      && var renewed := backend(RefreshRequest(s.tokens.refresh));
         e.outcome == Rejected(if !IsSuccess(renewed.status) then HttpError(RefreshRequest(s.tokens.refresh), renewed)
                               else TypeError("Cannot destructure property 'access' of null"))
  {
  }

  /** Whatever happens, the refresh token is never rewritten: it is kept or
      removed, and the client only ever navigates to /login */
  lemma RefreshTokenNeverRotates(s: ClientState, request: Request, retried: bool, backend: Backend)
    ensures var e := Transmit(s, request, retried, backend);
      && (e.state.tokens.refresh == s.tokens.refresh || e.state.tokens == NoTokens)
      && (e.state.location == s.location || e.state.location == Some(LoginPage))
      && |e.sent| <= 3
  {
  }

  // ---------------------------------------------------------------------
  // The config object the interceptors mutate, and the client

  /** A call as the endpoint table builds it: `api.<verb>(path, data)` */
  datatype Call = Call(verb: Verb, path: string, data: Option<Json>)

  /** The request the instance makes for a call, before any interceptor */
  function Prepare(call: Call): Request {
    Request(call.verb, ApiUrl + call.path, DefaultHeaders, call.data)
  }

  /** The axios request config: the interceptors write `headers` and `_retry` */
  class RequestConfig {
    var verb: Verb
    var baseUrl: string
    var url: string
    var headers: map<string, string>
    var data: Option<Json>
    var retry: bool

    constructor (call: Call)
      ensures Wire() == Prepare(call) && !retry
    {
      verb, baseUrl, url := call.verb, ApiUrl, call.path;
      headers, data, retry := DefaultHeaders, call.data, false;
    }

    /** The request this config describes */
    function Wire(): Request
      reads this
    {
      Request(verb, baseUrl + url, headers, data)
    }
  }

  class ApiClient {
    const storage: LocalStorage
    var location: Option<string>
    /** every request that reached the network, in order */
    ghost var Sent: seq<Request>

    constructor (storage: LocalStorage)
      ensures this.storage == storage && location == None && Sent == []
    {
      this.storage := storage;
      location := None;
      Sent := [];
    }

    function State(): ClientState
      reads this, storage
    {
      ClientState(storage.Snapshot(), location)
    }

    /** The request interceptor (lines 14-25) */
    method InterceptRequest(config: RequestConfig)
      modifies config`headers
      ensures config.headers == Authorize(old(config.headers), storage.accessToken)
    {
      var token := storage.GetItem(AccessToken);
      if IsSet(token) {
        config.headers := config.headers["Authorization" := Bearer(token.value)];
      }
    }

    /** The response interceptor's error handler (lines 32-62) for the failing
        reply to the request `config` describes */
    method InterceptFailure(config: RequestConfig, reply: Reply, backend: Backend) returns (outcome: Outcome)
      modifies this, storage, config`headers, config`retry
      ensures var e := HandleFailure(old(State()), old(config.Wire()), reply, old(config.retry), backend);
        && outcome == e.outcome && State() == e.state && config.retry == e.retried
        && Sent == old(Sent) + e.sent
    {
      if reply.status == 401 && !config.retry {
        config.retry := true;
        var refreshToken := storage.GetItem(RefreshToken);
        var renewal := RefreshRequest(refreshToken);
        Sent := Sent + [renewal];
        var renewed := backend(renewal);
        var access := if IsSuccess(renewed.status) then RenewedAccess(renewed.data)
                      else Thrown(HttpError(renewal, renewed));
        match access {
          case Ok(token) =>
            storage.SetItem(AccessToken, token);
            config.headers := config.headers["Authorization" := Bearer(token)];
            var replay := config.Wire();
            Sent := Sent + [replay];
            // bare axios: the replay passes no interceptor
            var answer := backend(replay);
            outcome := if IsSuccess(answer.status) then Resolved(answer) else Rejected(HttpError(replay, answer));
          case Thrown(refreshError) =>
            storage.RemoveItem(AccessToken);
            storage.RemoveItem(RefreshToken);
            location := Some(LoginPage);
            outcome := Rejected(refreshError);
        }
      } else {
        outcome := Rejected(HttpError(config.Wire(), reply));
      }
    }

    /** Sends the request `config` describes through both interceptors */
    method Send(config: RequestConfig, backend: Backend) returns (outcome: Outcome)
      modifies this, storage, config`headers, config`retry
      ensures var e := Transmit(old(State()), old(config.Wire()), old(config.retry), backend);
        && outcome == e.outcome && State() == e.state && config.retry == e.retried
        && Sent == old(Sent) + e.sent
    {
      InterceptRequest(config);
      var first := config.Wire();
      Sent := Sent + [first];
      var reply := backend(first);
      if IsSuccess(reply.status) {
        outcome := Resolved(reply);
      } else {
        outcome := InterceptFailure(config, reply, backend);
      }
    }

    /** `api.<verb>(path, data)`: a fresh config sent through the pipeline */
    method Dispatch(call: Call, backend: Backend) returns (outcome: Outcome)
      modifies this, storage
      ensures var e := Transmit(old(State()), Prepare(call), false, backend);
        outcome == e.outcome && State() == e.state && Sent == old(Sent) + e.sent
    {
      var config := new RequestConfig(call);
      outcome := Send(config, backend);
    }
  }
}
