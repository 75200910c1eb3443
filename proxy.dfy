/**
 * The relay of proxy.js: a one-slot bearer-token cache in front of the inventory
 * service's auth endpoint, and the routing of inbound requests to a preflight
 * reply, a 405, the token envelope, a relayed stock call or a 404.
 *
 * The clock, the auth endpoint's reply and the stock endpoint's reply are
 * parameters; the request arrives with its pathname and search already split.
 */
module Proxy {
  import opened Wrappers
  import opened Text

  /** A renewed token is trusted for 55 minutes, in milliseconds. */
  const TokenLifetimeMs: int := 55 * 60 * 1000

  const TokenPath: string := "/auth/external/token"
  const StockPrefix: string := "/api/units/stock"
  const StockUrl: string := "https://gw.logicwareperu.com/external/units/stock"
  const UserAgent: string := "Casa-Bonita-Proxy/1.0"

  /** The environment the process reads once at start-up: X_API_KEY and X_SUBDOMAIN (None when unset). */
  datatype Config = Config(apiKey: Option<string>, subdomain: Option<string>)

  /** Start-up exits only when a credential is missing or empty and NODE_ENV is 'production'. */
  function StartupContinues(config: Config, production: bool): (go: bool)
    ensures go <==> !production || (config.apiKey.Some? && config.apiKey.value != ""
                                    && config.subdomain.Some? && config.subdomain.value != "")
  {
    var missing := config.apiKey.None? || config.apiKey.value == ""
                   || config.subdomain.None? || config.subdomain.value == "";
    !(missing && production)
  }

  // ---------------------------------------------------------------- token cache

  /** The `data` member of the auth reply; `accessToken` is None when the member is absent. */
  datatype AuthData = AuthData(accessToken: Option<string>)
  /** The auth reply once parsed as JSON; `data` is None when absent or null. */
  datatype AuthBody = AuthBody(succeeded: bool, data: Option<AuthData>)
  /** What the auth endpoint answers when asked: a transport error, or a text that is JSON (Some) or not (None). */
  datatype AuthReply = AuthNetworkError(message: string) | AuthText(json: Option<AuthBody>)

  datatype TokenError =
    | InvalidHeader             // a credential is unset, so the request cannot even be built
    | UpstreamUnavailable(message: string)
    | AuthNotJson
    | AuthResponseInvalid

  /** The shape test the reply passes before anything is stored: success flag, data, a non-empty token. */
  predicate AcceptedAuthBody(b: AuthBody) {
    b.succeeded && b.data.Some? && b.data.value.accessToken.Some? && b.data.value.accessToken.value != ""
  }

  /** The outcome of one renewal round trip. */
  function Renewal(config: Config, reply: AuthReply): (r: Result<string, TokenError>)
    ensures r.Success? <==> config.apiKey.Some? && config.subdomain.Some?
                            && reply.AuthText? && reply.json.Some? && AcceptedAuthBody(reply.json.value)
    ensures r.Success? ==> r.value != "" && r.value == reply.json.value.data.value.accessToken.value
  {
    if config.apiKey.None? || config.subdomain.None? then Failure(InvalidHeader)
    else match reply
      case AuthNetworkError(m) => Failure(UpstreamUnavailable(m))
      case AuthText(None) => Failure(AuthNotJson)
      case AuthText(Some(b)) =>
        if AcceptedAuthBody(b) then Success(b.data.value.accessToken.value) else Failure(AuthResponseInvalid)
  }

  /** The module-level token cache: a token and its expiry, both null at start-up. */
  class TokenCache {
    var token: Option<string>
    var expiresAt: Option<int>

    /** Both slots are set together, and a stored token is never empty. */
    ghost predicate Valid()
      reads this
    {
      (token.Some? <==> expiresAt.Some?) && (token.Some? ==> token.value != "")
    }

    constructor ()
      ensures Valid() && token == None && expiresAt == None
    {
      token, expiresAt := None, None;
    }

    /** The cached token may be served at time `now`: strictly before its expiry. */
    predicate Serves(now: int)
      reads this
    {
      token.Some? && token.value != "" && expiresAt.Some? && now < expiresAt.value
    }

    /**
     * getValidToken: the cached token when it still serves at `now`; otherwise one
     * renewal, whose reply arrives at `replyAt`, storing the new token until
     * `replyAt` + 55 minutes. A failed renewal leaves the cache as it was.
     */
    method GetValidToken(config: Config, now: int, replyAt: int, reply: AuthReply)
      returns (r: Result<string, TokenError>, renewed: bool)
      requires Valid()
      modifies this
      ensures Valid()
      ensures renewed <==> !old(Serves(now))
      ensures !renewed ==> r == Success(old(token).value) && now < old(expiresAt).value
                           && token == old(token) && expiresAt == old(expiresAt)
      ensures renewed ==> r == Renewal(config, reply)
      ensures renewed && r.Success? ==> token == Some(r.value) && expiresAt == Some(replyAt + TokenLifetimeMs)
      ensures r.Failure? ==> token == old(token) && expiresAt == old(expiresAt)
    {
      if token.Some? && token.value != "" && expiresAt.Some? && now < expiresAt.value {
        return Success(token.value), false;
      }
      renewed := true;
      r := Renewal(config, reply);
      if r.Success? {
        token := Some(r.value);
        expiresAt := Some(replyAt + TokenLifetimeMs);
      }
    }
  }

  /**
   * A renewal followed by a second request before the 55 minutes are over: the
   * second request is served from the cache, with the same token and no renewal.
   */
  method RenewThenReuse(config: Config, t0: int, t1: int, t2: int, reply: AuthReply, unused: AuthReply)
    returns (first: Result<string, TokenError>, second: Result<string, TokenError>, renewedAgain: bool)
    requires t2 < t1 + TokenLifetimeMs
    ensures first == Renewal(config, reply)
    ensures first.Success? ==> second == first && !renewedAgain
    ensures first.Failure? ==> renewedAgain && second == Renewal(config, unused)
  {
    var cache := new TokenCache();
    var renewed;
    first, renewed := cache.GetValidToken(config, t0, t1, reply);
    second, renewedAgain := cache.GetValidToken(config, t2, t2, unused);
  }

  // ---------------------------------------------------------------- routing

  /** An inbound request: method, URL pathname, URL search ("?..." or None) and the POST body. */
  datatype Request = Request(verb: string, pathname: string, search: Option<string>, body: string)

  datatype Route = Preflight | MethodNotAllowed | TokenEnvelope | StockRelay | NotFound

  /** The chain of tests of the request handler, in the order the handler makes them. */
  function RouteOf(verb: string, pathname: string): Route {
    if verb == "OPTIONS" then Preflight
    else if verb != "GET" && verb != "POST" then MethodNotAllowed
    else if pathname == TokenPath then TokenEnvelope
    else if StockPrefix <= pathname then StockRelay
    else NotFound
  }

  predicate NeedsToken(route: Route) { route == TokenEnvelope || route == StockRelay }

  /** The URL the stock call goes to: the fixed upstream path followed by the original search string. */
  function RelayUrl(search: Option<string>): (url: string)
    ensures StockUrl <= url && url[|StockUrl|..] == search.GetOr("")
  {
    StockUrl + search.GetOr("")
  }

  datatype UpstreamRequest = UpstreamRequest(verb: string, url: string, headers: map<string, string>, body: Option<string>)

  /** The headers of the relayed call. */
  function RelayHeaders(token: string, subdomain: string): (h: map<string, string>)
    ensures h.Keys == {"Authorization", "X-Subdomain", "Content-Type", "Accept", "User-Agent"}
    ensures h["Authorization"] == "Bearer " + token && h["X-Subdomain"] == subdomain
  {
    map["Authorization" := "Bearer " + token, "X-Subdomain" := subdomain,
        "Content-Type" := "application/json", "Accept" := "application/json", "User-Agent" := UserAgent]
  }

  /** The relayed call: same method, rewritten URL, token header, and the body for POST only. */
  function RelayRequest(req: Request, token: string, subdomain: string): UpstreamRequest {
    UpstreamRequest(req.verb, RelayUrl(req.search), RelayHeaders(token, subdomain),
                    if req.verb == "POST" then Some(req.body) else None)
  }

  datatype Body =
    | NoBody
    | ErrorJson(error: string, details: Option<string>)
    | TokenJson(accessToken: string)     // {succeeded: true, data: {accessToken}}
    | Verbatim(text: string)

  datatype Response = Response(status: int, headers: map<string, string>, body: Body)

  /** Set on every response before any test is made. */
  const CorsHeaders: map<string, string> :=
    map["Access-Control-Allow-Origin" := "*", "Access-Control-Allow-Methods" := "GET, POST",
        "Access-Control-Allow-Headers" := "Content-Type, Authorization, X-Subdomain, X-API-Key"]

  function JsonResponse(status: int, body: Body): Response {
    Response(status, CorsHeaders["Content-Type" := "application/json"], body)
  }

  /** What the stock endpoint answers: a transport error, or a status code and body text. */
  datatype UpstreamReply = UpstreamConnectError(message: string) | UpstreamResponse(status: int, text: string)

  /**
   * The handler's answer once the route is known and, for the two routes that need
   * one, the token lookup has been made; also the call relayed upstream, if any.
   */
  function Answer(req: Request, route: Route, token: Result<string, TokenError>, config: Config,
                  upstream: UpstreamReply): (Response, Option<UpstreamRequest>)
  {
    match route
    case Preflight => (Response(200, CorsHeaders, NoBody), None)
    case MethodNotAllowed => (JsonResponse(405, ErrorJson("Method not allowed", None)), None)
    case NotFound => (JsonResponse(404, ErrorJson("Endpoint not found", None)), None)
    case TokenEnvelope =>
      if token.Failure? then (JsonResponse(500, ErrorJson("Internal server error", None)), None)
      else (JsonResponse(200, TokenJson(token.value)), None)
    case StockRelay =>
      if token.Failure? || config.subdomain.None? then
        (JsonResponse(500, ErrorJson("Internal server error", None)), None)
      else
        var call := RelayRequest(req, token.value, config.subdomain.value);
        match upstream
        case UpstreamConnectError(m) =>
          (JsonResponse(500, ErrorJson("Failed to connect to API", Some(m))), Some(call))
        case UpstreamResponse(status, text) =>
          (JsonResponse(status, Verbatim(text)), Some(call))
  }

  /**
   * The request handler: routes the request, asks the cache for a token only on
   * the two routes that need one, and answers.
   */
  method Handle(cache: TokenCache, config: Config, req: Request, now: int, replyAt: int,
                auth: AuthReply, upstream: UpstreamReply)
    returns (resp: Response, forwarded: Option<UpstreamRequest>, tok: Result<string, TokenError>)
    requires cache.Valid()
    modifies cache
    ensures cache.Valid()
    ensures !NeedsToken(RouteOf(req.verb, req.pathname)) ==>
              cache.token == old(cache.token) && cache.expiresAt == old(cache.expiresAt)
              && (resp, forwarded) == Answer(req, RouteOf(req.verb, req.pathname), Failure(AuthResponseInvalid), config, upstream)
    ensures NeedsToken(RouteOf(req.verb, req.pathname)) ==>
              (resp, forwarded) == Answer(req, RouteOf(req.verb, req.pathname), tok, config, upstream)
              && tok == (if old(cache.Serves(now)) then Success(old(cache.token).value) else Renewal(config, auth))
    ensures NeedsToken(RouteOf(req.verb, req.pathname)) ==>
              if !old(cache.Serves(now)) && tok.Success? then
                cache.token == Some(tok.value) && cache.expiresAt == Some(replyAt + TokenLifetimeMs)
              else cache.token == old(cache.token) && cache.expiresAt == old(cache.expiresAt)
  {
    var route := RouteOf(req.verb, req.pathname);
    tok := Failure(AuthResponseInvalid);
    if NeedsToken(route) {
      var renewed;
      tok, renewed := cache.GetValidToken(config, now, replyAt, auth);
      resp, forwarded := Answer(req, route, tok, config, upstream).0, Answer(req, route, tok, config, upstream).1;
    } else {
      resp, forwarded := Answer(req, route, Failure(AuthResponseInvalid), config, upstream).0,
                         Answer(req, route, Failure(AuthResponseInvalid), config, upstream).1;
    }
  }

  // ---------------------------------------------------------------- properties

  /** A preflight request is answered 200 with an empty body whatever its path. */
  lemma PreflightAnyPath(pathname: string, req: Request, tok: Result<string, TokenError>, config: Config, up: UpstreamReply)
    requires req.verb == "OPTIONS"
    ensures RouteOf(req.verb, pathname) == Preflight
    ensures Answer(req, Preflight, tok, config, up) == (Response(200, CorsHeaders, NoBody), None)
  {
  }

  /** Each route is taken for exactly the requests described in the routing table. */
  lemma {:induction false} RouteCharacterisation(verb: string, pathname: string)
    ensures RouteOf(verb, pathname) == MethodNotAllowed <==> verb !in {"OPTIONS", "GET", "POST"}
    ensures RouteOf(verb, pathname) == TokenEnvelope <==> verb in {"GET", "POST"} && pathname == TokenPath
    ensures RouteOf(verb, pathname) == StockRelay <==> verb in {"GET", "POST"} && StockPrefix <= pathname
    ensures RouteOf(verb, pathname) == NotFound <==>
              verb in {"GET", "POST"} && pathname != TokenPath && !(StockPrefix <= pathname)
  {
    if StockPrefix <= pathname {
      assert pathname[..|StockPrefix|] == StockPrefix;
      assert TokenPath[2] != StockPrefix[2];
      assert pathname != TokenPath;
    }
  }

  /** Every response the handler can give carries the permissive CORS origin header. */
  lemma {:induction false} CorsOnEveryResponse(req: Request, route: Route, tok: Result<string, TokenError>,
                                              config: Config, up: UpstreamReply)
    ensures var resp := Answer(req, route, tok, config, up).0;
            "Access-Control-Allow-Origin" in resp.headers && resp.headers["Access-Control-Allow-Origin"] == "*"
  {
  }

  /** The relayed call keeps the query string, drops any path after the prefix, and carries the token. */
  lemma {:induction false} RelayKeepsQuery(req: Request, extra: string, token: string, config: Config, text: string, status: int)
    requires req.verb in {"GET", "POST"} && req.pathname == StockPrefix + extra
    requires token != "" && config.subdomain.Some?
    ensures var (resp, call) := Answer(req, RouteOf(req.verb, req.pathname), Success(token), config, UpstreamResponse(status, text));
            call.Some? && call.value.url == StockUrl + req.search.GetOr("")
            && call.value.headers["Authorization"] == "Bearer " + token
            && call.value.verb == req.verb
            && (call.value.body.Some? <==> req.verb == "POST")
            && resp.status == status && resp.body == Verbatim(text)
  {
    assert StockPrefix <= req.pathname;
    RouteCharacterisation(req.verb, req.pathname);
  }

  /** A failed token lookup on either token route gives 500 and relays nothing. */
  lemma {:induction false} TokenFailureIs500(req: Request, e: TokenError, config: Config, up: UpstreamReply)
    requires NeedsToken(RouteOf(req.verb, req.pathname))
    ensures var (resp, call) := Answer(req, RouteOf(req.verb, req.pathname), Failure(e), config, up);
            resp.status == 500 && resp.body == ErrorJson("Internal server error", None) && call.None?
  {
  }

  /** The worked example of the routing table: a stock query with a cached token. */
  lemma StockQueryExample(token: string, config: Config)
    requires token != "" && config.subdomain.Some?
    ensures var req := Request("GET", "/api/units/stock", Some("?projectCode=CASABONITA&stageId=1"), "");
            var (_, call) := Answer(req, RouteOf(req.verb, req.pathname), Success(token), config, UpstreamResponse(200, "{}"));
            call == Some(UpstreamRequest("GET", StockUrl + "?projectCode=CASABONITA&stageId=1",
                                         RelayHeaders(token, config.subdomain.value), None))
  {
    var req := Request("GET", "/api/units/stock", Some("?projectCode=CASABONITA&stageId=1"), "");
    assert RouteOf(req.verb, req.pathname) == StockRelay by { RouteCharacterisation(req.verb, req.pathname); }
  }
}
