/**
 * The module-level state of index.js: the API client's stored tokens, the
 * appData record and the refreshTokenTimeout variable, with the handlers that
 * update them in place. Each method is specified by the transition of
 * TokenLifecycle or Gateway it performs.
 */
module Server {
  import opened Wrappers
  import opened TokenLifecycle
  import opened Gateway

  class TokenManager {
    const config: Config
    var clientAccess: Option<string>      // spotifyApi.getAccessToken()
    var clientRefresh: Option<string>     // spotifyApi.getRefreshToken()
    var appData: AppData
    var refreshTokenTimeout: Option<nat>  // the handle of the last timer armed, if any
    var timersArmed: nat                  // the runtime's handle counter: setTimeout returns it
    ghost var live: map<nat, Delay>       // timers armed, neither cleared nor fired
    ghost var cancelled: set<nat>         // handles cleared while live
    ghost var fired: seq<nat>             // handles whose callback ran (refreshAccessToken calls)
    ghost var codesExchanged: seq<string> // codes passed to authorizationCodeGrant, in order

    /** The abstract value of the state. */
    ghost function Snapshot(): Session
      reads this
    {
      Session(clientAccess, clientRefresh, appData, refreshTokenTimeout, live,
              timersArmed, cancelled, fired, codesExchanged)
    }

    ghost predicate Valid()
      reads this
    {
      Consistent(Snapshot())
    }

    /** Process start with the loaded config and record. */
    constructor (cfg: Config, data: AppData, now: int)
      ensures config == cfg
      ensures Snapshot() == Startup(cfg, data, now)
      ensures Valid()
    {
      config := cfg;
      clientAccess, clientRefresh := data.accessToken, data.refreshToken;
      appData := data;
      refreshTokenTimeout := None;
      timersArmed := 0;
      live, cancelled, fired, codesExchanged := map[], {}, [], [];
      new;
      if TokenValid(now, appData.expirationEpoch, config.anticipate, clientAccess, clientRefresh) {
        live := live[timersArmed := RenewalDelay(appData.expirationEpoch, now, config.anticipate)];
        refreshTokenTimeout := Some(timersArmed);
        timersArmed := timersArmed + 1;
      }
    }

    /** setTokens(code), with the exchange settling as `result` at time `now`. */
    method SetTokens(code: string, now: int, result: Option<Grant>)
      requires Valid()
      modifies this
      ensures Snapshot() == AfterExchange(config, old(Snapshot()), code, now, result)
      ensures Valid()
    {
      codesExchanged := codesExchanged + [code];
      match result {
        case None =>
        case Some(g) =>
          clientAccess := Some(g.accessToken);
          clientRefresh := Some(g.refreshToken);
          var expiry := ExpirationEpoch(now, g.expiresIn);
          appData := AppData(clientAccess, clientRefresh, now, expiry);
          // clearTimeout(refreshTokenTimeout)
          if refreshTokenTimeout.Some? && refreshTokenTimeout.value in live {
            live := live - {refreshTokenTimeout.value};
            cancelled := cancelled + {refreshTokenTimeout.value};
          }
          // refreshTokenTimeout = setTimeout(...)
          live := live[timersArmed := RenewalDelay(appData.expirationEpoch, now, config.anticipate)];
          refreshTokenTimeout := Some(timersArmed);
          timersArmed := timersArmed + 1;
      }
    }

    /** The runtime runs the callback of timer `handle`, which calls refreshAccessToken. */
    method RenewalTimerFires(handle: nat)
      requires Valid()
      modifies this
      ensures Snapshot() == AfterRenewalFires(old(Snapshot()), handle)
      ensures Valid()
    {
      if handle in live {
        live := live - {handle};
        fired := fired + [handle];
      }
    }

    /** The /callback route handler. */
    method HandleCallback(q: Query, now: int, result: Option<Grant>) returns (resp: Response)
      requires Valid()
      modifies this
      ensures Served(resp, Snapshot()) == CallbackHandled(config, old(Snapshot()), q, now, result)
      ensures Valid()
    {
      var decision := Callback(config, q);
      if decision.Exchange? {
        SetTokens(decision.code, now, result);
        resp := Send(200, File("success.html"));
      } else {
        resp := Send(500, Text("An error occurred"));
      }
    }

    /** A GET request: the global gate, then the route it reaches. */
    method Handle(req: Request, now: int, remote: Remote, result: Option<Grant>) returns (resp: Response)
      requires Valid()
      modifies this
      ensures Served(resp, Snapshot()) == Serve(config, old(Snapshot()), req, now, remote, result)
      ensures Valid()
    {
      var valid := TokenValid(now, appData.expirationEpoch, config.anticipate, clientAccess, clientRefresh);
      var gate := Gate(config, req.path, valid);
      if gate.RedirectToAuthorize? {
        resp := Redirect(gate.url);
      } else if req.path == CallbackRoute {
        resp := HandleCallback(req.query, now, result);
      } else if req.path in ProxiedRoutes {
        resp := Relay(config, remote);
      } else if req.path == "/" {
        resp := Send(200, File("index.html"));
      } else {
        resp := Send(404, NoRoute(req.path));
      }
    }
  }
}
