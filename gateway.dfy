/**
 * The HTTP side of index.js as decisions: the global gate, the /callback
 * handler's checks, the provider-error classifier and the routes behind the
 * gate. Responses are values; Express itself is not modelled.
 */
module Gateway {
  import opened Wrappers
  import opened TokenLifecycle

  /** The path the callback route is registered on, independent of the configured redirect path. */
  const CallbackRoute: string := "/callback"

  /** The three routes that relay a read from the provider. */
  const ProxiedRoutes: set<string> := {"/api/artist", "/api/albums", "/api/user"}

  /** The value of createAuthorizeURL(scopes, state), kept opaque. */
  datatype AuthorizeUrl = AuthorizeUrl(scopes: seq<string>, state: string)

  /** The query parameters the callback reads; None is an absent parameter. */
  datatype Query = Query(error: Option<string>, code: Option<string>, state: Option<string>)

  datatype Request = Get(path: string, query: Query)

  /** An error rejected by the API client: its statusCode and message properties. */
  datatype ApiError = ApiError(statusCode: Option<int>, message: Option<string>)

  /** The settled promise of a proxied provider read. */
  datatype Remote = Fulfilled(json: string) | Rejected(error: ApiError)

  datatype Body =
    | Text(text: string)
    | File(name: string)
    | Json(json: string)
    | Url(url: AuthorizeUrl)
    | Error(error: ApiError)
    | NoRoute(path: string)

  /** res.send with a status, or res.redirect (a Location header). */
  datatype Response = Send(status: int, body: Body) | Redirect(location: AuthorizeUrl)

  datatype GateOutcome = PassCallbackPath | PassValidToken | RedirectToAuthorize(url: AuthorizeUrl)

  /** Which check of the callback handler decided, in the order they run. */
  datatype CallbackDecision = ProviderError | MissingCode | StateMismatch | Exchange(code: string)

  /** A response together with the session it leaves behind. */
  datatype Served = Served(response: Response, next: Session)

  function AuthorizeUrlFor(cfg: Config): AuthorizeUrl {
    AuthorizeUrl(cfg.scopes, cfg.state)
  }

  /**
   * The global gate: the configured redirect path always passes; any other
   * path passes exactly when the token is valid, and is otherwise redirected
   * to the authorize URL without reaching a route.
   */
  function Gate(cfg: Config, path: string, tokenValid: bool): (g: GateOutcome)
    ensures path == cfg.redirectPath ==> g == PassCallbackPath
    ensures path != cfg.redirectPath ==> (g == PassValidToken <==> tokenValid)
    ensures g.RedirectToAuthorize? <==> path != cfg.redirectPath && !tokenValid
    ensures g.RedirectToAuthorize? ==> g.url == AuthorizeUrlFor(cfg)
  {
    if path == cfg.redirectPath then PassCallbackPath
    else if tokenValid then PassValidToken
    else RedirectToAuthorize(AuthorizeUrlFor(cfg))
  }

  /** The callback accepts a query with no error, a non-empty code and exactly the configured state. */
  predicate Accepted(cfg: Config, q: Query) {
    !Truthy(q.error) && Truthy(q.code) && q.state == Some(cfg.state)
  }

  /** The callback's checks: error first, then code, then state. */
  function Callback(cfg: Config, q: Query): (d: CallbackDecision)
    ensures Truthy(q.error) ==> d == ProviderError
    ensures !Truthy(q.error) && !Truthy(q.code) ==> d == MissingCode
    ensures !Truthy(q.error) && Truthy(q.code) && q.state != Some(cfg.state) ==> d == StateMismatch
    ensures d.Exchange? <==> Accepted(cfg, q)
    ensures d.Exchange? ==> q.code == Some(d.code) && d.code != ""
  {
    if Truthy(q.error) then ProviderError
    else if !Truthy(q.code) then MissingCode
    else if q.state != Some(cfg.state) then StateMismatch
    else Exchange(q.code.value)
  }

  /**
   * The /callback handler: a rejected query answers 500 and leaves the session
   * alone; an accepted one sends its code to the exchange exactly once and
   * answers the success page whatever the exchange's outcome.
   */
  function CallbackHandled(cfg: Config, s: Session, q: Query, now: int, result: Option<Grant>): (r: Served)
    ensures !Accepted(cfg, q) ==> r == Served(Send(500, Text("An error occurred")), s)
    ensures Accepted(cfg, q) ==> r.response == Send(200, File("success.html"))
    ensures Accepted(cfg, q) ==> r.next == AfterExchange(cfg, s, q.code.value, now, result)
    ensures r.next.codesExchanged ==
      if Accepted(cfg, q) then s.codesExchanged + [q.code.value] else s.codesExchanged
    ensures Consistent(s) ==> Consistent(r.next)
  {
    match Callback(cfg, q)
    case Exchange(code) => Served(Send(200, File("success.html")), AfterExchange(cfg, s, code, now, result))
    case _ => Served(Send(500, Text("An error occurred")), s)
  }

  /**
   * spotifyErrorHandler: a 401 whose message is 'Unauthorized' becomes a 302
   * whose body (not a Location header) is the authorize URL; anything else a
   * 500 carrying the error.
   */
  function SpotifyErrorHandler(cfg: Config, e: ApiError): (r: Response)
    ensures r == Send(302, Url(AuthorizeUrlFor(cfg))) <==>
      e.statusCode == Some(401) && e.message == Some("Unauthorized")
    ensures !(e.statusCode == Some(401) && e.message == Some("Unauthorized")) ==> r == Send(500, Error(e))
  {
    if e.statusCode == Some(401) && e.message == Some("Unauthorized") then
      Send(302, Url(AuthorizeUrlFor(cfg)))
    else
      Send(500, Error(e))
  }

  /** A proxied route once the provider read has settled: relay the body, or classify the error. */
  function Relay(cfg: Config, remote: Remote): (r: Response)
    ensures remote.Fulfilled? ==> r == Send(200, Json(remote.json))
    ensures remote.Rejected? ==> r == SpotifyErrorHandler(cfg, remote.error)
    ensures remote.Rejected? ==> r.Send? && r.status != 200
    ensures remote.Rejected? ==> (r.status == 302 <==>
      remote.error.statusCode == Some(401) && remote.error.message == Some("Unauthorized"))
  {
    match remote
    case Fulfilled(json) => Send(200, Json(json))
    case Rejected(e) => SpotifyErrorHandler(cfg, e)
  }

  /**
   * One GET request at time `now`: the gate, then the route. `remote` is what
   * a proxied read settles with, `result` what a started exchange settles with.
   */
  function Serve(cfg: Config, s: Session, req: Request, now: int, remote: Remote, result: Option<Grant>): (r: Served)
    ensures req.path != cfg.redirectPath && !SessionValid(cfg, s, now) ==>
      r == Served(Redirect(AuthorizeUrlFor(cfg)), s)
    ensures (req.path == cfg.redirectPath || SessionValid(cfg, s, now)) && req.path in ProxiedRoutes ==>
      r == Served(Relay(cfg, remote), s)
    ensures (req.path == cfg.redirectPath || SessionValid(cfg, s, now)) && req.path == CallbackRoute ==>
      r == CallbackHandled(cfg, s, req.query, now, result)
    ensures r.next != s ==> req.path == CallbackRoute && Accepted(cfg, req.query)
    ensures Consistent(s) ==> Consistent(r.next)
  {
    match Gate(cfg, req.path, SessionValid(cfg, s, now))
    case RedirectToAuthorize(url) => Served(Redirect(url), s)
    case _ =>
      if req.path == CallbackRoute then CallbackHandled(cfg, s, req.query, now, result)
      else if req.path in ProxiedRoutes then Served(Relay(cfg, remote), s)
      else if req.path == "/" then Served(Send(200, File("index.html")), s)
      else Served(Send(404, NoRoute(req.path)), s)
  }

  /**
   * Because the route is registered on "/callback" while the gate exempts the
   * configured redirect path, a differing configuration gates the callback
   * itself: with no valid token the code is never exchanged.
   */
  lemma CallbackGatedWhenPathsDiffer(cfg: Config, s: Session, q: Query, now: int, remote: Remote, result: Option<Grant>)
    requires cfg.redirectPath != CallbackRoute && !SessionValid(cfg, s, now)
    ensures Serve(cfg, s, Get(CallbackRoute, q), now, remote, result) == Served(Redirect(AuthorizeUrlFor(cfg)), s)
  {
  }

  /** The callback's answer does not depend on how the exchange it started settles. */
  lemma CallbackAnswerIgnoresExchange(cfg: Config, s: Session, q: Query, now: int, r1: Option<Grant>, r2: Option<Grant>)
    ensures CallbackHandled(cfg, s, q, now, r1).response == CallbackHandled(cfg, s, q, now, r2).response
  {
  }
}
