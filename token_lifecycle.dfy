/**
 * The token record, its validity check, the renewal timer and the
 * authorization-code exchange of index.js, as values and transitions on them.
 * The clock is the parameter `now` (milliseconds since the epoch); the outcome
 * of the remote exchange is the parameter `result`.
 */
module TokenLifecycle {
  import opened Wrappers

  /** The settings of config.json that the token logic reads. */
  datatype Config = Config(
    redirectPath: string,     // spotify_redirect, the path the gate lets through
    scopes: seq<string>,      // spotify_scopes
    state: string,            // spotify_state, the anti-CSRF string
    anticipate: Option<int>)  // token_expiration_anticipate in milliseconds, possibly absent

  /** The persisted token record appdata.json (appData). */
  datatype AppData = AppData(
    accessToken: Option<string>,
    refreshToken: Option<string>,
    acquisitionEpoch: int,
    expirationEpoch: int)

  /**
   * The body of a fulfilled authorization-code grant. `expiresIn` is the
   * result of parseInt on expires_in: None stands for NaN.
   */
  datatype Grant = Grant(accessToken: string, refreshToken: string, expiresIn: Option<int>)

  /** A timer delay as JavaScript computes it: milliseconds, or NaN when a term is undefined. */
  datatype Delay = Millis(ms: int) | NaN

  /**
   * Everything the core keeps between requests: the tokens stored in the API
   * client, the appData record, and the handle held in refreshTokenTimeout.
   * Beside them, what the runtime and the provider see: the timers that are
   * armed and have neither been cleared nor fired (`live`, with their delays),
   * the number of handles handed out so far (handle n is the n-th setTimeout),
   * the handles cleared while still live, the handles whose callback ran (each
   * one a refresh request), and the codes sent to the exchange.
   */
  datatype Session = Session(
    clientAccess: Option<string>,
    clientRefresh: Option<string>,
    appData: AppData,
    timeout: Option<nat>,
    live: map<nat, Delay>,
    timersArmed: nat,
    cancelled: set<nat>,
    fired: seq<nat>,
    codesExchanged: seq<string>)

  /** JavaScript truthiness of a possibly undefined string: undefined and '' are falsy. */
  predicate Truthy(s: Option<string>) {
    s.Some? && s.value != ""
  }

  /** `config.token_expiration_anticipate || 0` */
  function Margin(anticipate: Option<int>): int {
    match anticipate
    case Some(m) => m
    case None => 0
  }

  /**
   * isTokenValid: the clock is before the anticipated expiry and the client
   * holds an access and a refresh token.
   */
  function TokenValid(now: int, expirationEpoch: int, anticipate: Option<int>,
                      access: Option<string>, refresh: Option<string>): (valid: bool)
    ensures valid <==>
      && now + Margin(anticipate) < expirationEpoch
      && access.Some? && |access.value| > 0
      && refresh.Some? && |refresh.value| > 0
  {
    if now < expirationEpoch - Margin(anticipate) then
      !(!Truthy(access) || access == Some("") || !Truthy(refresh) || refresh == Some(""))
    else
      false
  }

  /** isTokenValid evaluated against a session: client tokens, record expiry. */
  function SessionValid(cfg: Config, s: Session, now: int): bool {
    TokenValid(now, s.appData.expirationEpoch, cfg.anticipate, s.clientAccess, s.clientRefresh)
  }

  /** `token_expiration_epoch - Date.now() - config.token_expiration_anticipate`, raw. */
  function RenewalDelay(expirationEpoch: int, now: int, anticipate: Option<int>): Delay {
    match anticipate
    case Some(a) => Millis(expirationEpoch - now - a)
    case None => NaN
  }

  /** `Date.now() + parseInt(expires_in) * 1000 || 0` */
  function ExpirationEpoch(now: int, expiresIn: Option<int>): int {
    match expiresIn
    case Some(seconds) => now + seconds * 1000
    case None => 0
  }

  /** `clearTimeout(refreshTokenTimeout)`: the held timer, if still live, is cancelled. */
  function ClearTimeout(s: Session): (t: Session)
    ensures t.timeout == s.timeout && t.timersArmed == s.timersArmed && t.fired == s.fired
    ensures t.clientAccess == s.clientAccess && t.clientRefresh == s.clientRefresh
    ensures t.appData == s.appData && t.codesExchanged == s.codesExchanged
    ensures forall h :: h in t.live <==> h in s.live && s.timeout != Some(h)
    ensures forall h :: h in t.live ==> t.live[h] == s.live[h]
    ensures t.cancelled ==
      if s.timeout.Some? && s.timeout.value in s.live then s.cancelled + {s.timeout.value} else s.cancelled
  {
    if s.timeout.Some? && s.timeout.value in s.live then
      s.(live := s.live - {s.timeout.value}, cancelled := s.cancelled + {s.timeout.value})
    else
      s
  }

  /** `refreshTokenTimeout = setTimeout(..., delay)`: a fresh handle, live and held. */
  function SetTimeout(s: Session, delay: Delay): (t: Session)
    ensures t.timeout == Some(s.timersArmed) && t.timersArmed == s.timersArmed + 1
    ensures s.timersArmed in t.live && t.live[s.timersArmed] == delay
    ensures forall h :: h in t.live <==> h in s.live || h == s.timersArmed
    ensures forall h :: h in s.live && h != s.timersArmed ==> t.live[h] == s.live[h]
    ensures t.clientAccess == s.clientAccess && t.clientRefresh == s.clientRefresh
    ensures t.appData == s.appData && t.codesExchanged == s.codesExchanged
    ensures t.cancelled == s.cancelled && t.fired == s.fired
  {
    s.(live := s.live[s.timersArmed := delay],
       timeout := Some(s.timersArmed),
       timersArmed := s.timersArmed + 1)
  }

  /**
   * The timer invariant: at most one timer is live, and it is the one held in
   * refreshTokenTimeout; every handle is one handed out; a cancelled timer is
   * not live and never fired; no timer fired twice, and a fired one is no
   * longer live.
   */
  predicate TimersConsistent(s: Session) {
    && (forall h :: h in s.live ==> s.timeout == Some(h))
    && (s.timeout.Some? ==> s.timeout.value < s.timersArmed)
    && (forall h :: h in s.cancelled ==> h < s.timersArmed && h !in s.live)
    && (forall i :: 0 <= i < |s.fired| ==>
          s.fired[i] < s.timersArmed && s.fired[i] !in s.live && s.fired[i] !in s.cancelled)
    && (forall i, j :: 0 <= i < j < |s.fired| ==> s.fired[i] != s.fired[j])
  }

  /**
   * The invariant the lifecycle keeps: the client holds the tokens of the
   * record, and the timers are consistent.
   */
  predicate Consistent(s: Session) {
    && s.clientAccess == s.appData.accessToken
    && s.clientRefresh == s.appData.refreshToken
    && TimersConsistent(s)
  }

  /**
   * Process start: the client is built from the loaded record, and a renewal
   * timer is armed only when the loaded token is valid.
   */
  function Startup(cfg: Config, data: AppData, now: int): (s: Session)
    ensures Consistent(s)
    ensures s.appData == data
    ensures s.clientAccess == data.accessToken && s.clientRefresh == data.refreshToken
    ensures s.timeout.Some? <==> SessionValid(cfg, s, now)
    ensures s.timeout.Some? ==>
      s.live == map[s.timeout.value := if cfg.anticipate.Some?
                                         then Millis(data.expirationEpoch - now - cfg.anticipate.value)
                                         else NaN]
    ensures s.timeout.None? ==> s.live == map[]
    ensures s.cancelled == {} && s.fired == [] && s.codesExchanged == []
  {
    var loaded := Session(data.accessToken, data.refreshToken, data, None, map[], 0, {}, [], []);
    if TokenValid(now, data.expirationEpoch, cfg.anticipate, data.accessToken, data.refreshToken) then
      SetTimeout(loaded, RenewalDelay(data.expirationEpoch, now, cfg.anticipate))
    else
      loaded
  }

  /**
   * setTokens(code) once its exchange has settled with `result` at time `now`.
   * The code is always sent to the provider; a rejected exchange changes
   * nothing else, a fulfilled one replaces the tokens in the client and the
   * record, stamps the record, clears the held renewal timer and arms one new
   * one, which is then the only live timer.
   */
  function AfterExchange(cfg: Config, s: Session, code: string, now: int, result: Option<Grant>): (t: Session)
    ensures t.codesExchanged == s.codesExchanged + [code]
    ensures result.None? ==> t == s.(codesExchanged := s.codesExchanged + [code])
    ensures result.Some? ==>
      && t.clientAccess == t.appData.accessToken == Some(result.value.accessToken)
      && t.clientRefresh == t.appData.refreshToken == Some(result.value.refreshToken)
      && t.appData.acquisitionEpoch == now
      && t.timeout == Some(s.timersArmed)
      && s.timersArmed in t.live
      && t.timersArmed == s.timersArmed + 1
      && t.fired == s.fired
    ensures result.Some? && Consistent(s) ==>
      && t.live == map[s.timersArmed := t.live[s.timersArmed]]
      && t.cancelled == if s.timeout.Some? && s.timeout.value in s.live
                        then s.cancelled + {s.timeout.value} else s.cancelled
    ensures result.Some? && result.value.expiresIn.Some? ==>
      t.appData.expirationEpoch - t.appData.acquisitionEpoch == result.value.expiresIn.value * 1000
    ensures result.Some? && result.value.expiresIn.None? ==> t.appData.expirationEpoch == 0
    ensures result.Some? && cfg.anticipate.None? ==> t.live[s.timersArmed] == NaN
    ensures result.Some? && cfg.anticipate.Some? ==>
      t.live[s.timersArmed] == Millis(t.appData.expirationEpoch - now - cfg.anticipate.value)
    ensures Consistent(s) ==> Consistent(t)
  {
    var sent := s.(codesExchanged := s.codesExchanged + [code]);
    match result
    case None => sent
    case Some(g) =>
      var expiry := ExpirationEpoch(now, g.expiresIn);
      var stored := sent.(
        clientAccess := Some(g.accessToken),
        clientRefresh := Some(g.refreshToken),
        appData := AppData(Some(g.accessToken), Some(g.refreshToken), now, expiry));
      SetTimeout(ClearTimeout(stored), RenewalDelay(expiry, now, cfg.anticipate))
  }

  /**
   * The runtime runs the callback of timer `handle`: if that timer is live,
   * it stops being live and asks the provider for a refresh whose answer
   * nothing stores; no successor is armed and refreshTokenTimeout keeps the
   * spent handle. A timer that is not live does not run.
   */
  function AfterRenewalFires(s: Session, handle: nat): (t: Session)
    ensures handle in s.live ==> t.live == s.live - {handle} && t.fired == s.fired + [handle]
    ensures handle !in s.live ==> t == s
    ensures Consistent(s) && handle in s.live ==> s.timeout == Some(handle)
    ensures t.timeout == s.timeout && t.timersArmed == s.timersArmed && t.cancelled == s.cancelled
    ensures t.clientAccess == s.clientAccess && t.clientRefresh == s.clientRefresh
    ensures t.appData == s.appData && t.codesExchanged == s.codesExchanged
    ensures Consistent(s) ==> Consistent(t)
  {
    if handle in s.live then
      s.(live := s.live - {handle}, fired := s.fired + [handle])
    else
      s
  }

  /**
   * Repeated validity checks without a change of state agree until the clock
   * passes the anticipated expiry: valid at a time means valid at every
   * earlier time, and never valid from the threshold on.
   */
  lemma ValidUntilThreshold(cfg: Config, s: Session, earlier: int, later: int)
    requires earlier <= later
    ensures SessionValid(cfg, s, later) ==> SessionValid(cfg, s, earlier)
    ensures later >= s.appData.expirationEpoch - Margin(cfg.anticipate) ==> !SessionValid(cfg, s, later)
  {
  }

  /**
   * After a fulfilled exchange with a parseable lifetime and a configured
   * anticipation, the new timer is due exactly when the new token stops being
   * valid.
   */
  lemma RenewalDueWhenValidityEnds(cfg: Config, s: Session, code: string, now: int, g: Grant, at: int)
    requires g.expiresIn.Some? && cfg.anticipate.Some?
    requires g.accessToken != "" && g.refreshToken != ""
    ensures var t := AfterExchange(cfg, s, code, now, Some(g));
      && t.live[s.timersArmed] == Millis(g.expiresIn.value * 1000 - cfg.anticipate.value)
      && (SessionValid(cfg, t, at) <==> at < now + t.live[s.timersArmed].ms)
  {
  }

  /**
   * The quirk of a missing anticipation setting: validity uses a margin of 0,
   * while the timer armed after an exchange gets a NaN delay.
   */
  lemma MissingAnticipationGivesNaNDelay(cfg: Config, s: Session, code: string, now: int, g: Grant, at: int)
    requires cfg.anticipate.None? && g.expiresIn.Some?
    requires g.accessToken != "" && g.refreshToken != ""
    ensures var t := AfterExchange(cfg, s, code, now, Some(g));
      && t.live[s.timersArmed] == NaN
      && (SessionValid(cfg, t, at) <==> at < now + g.expiresIn.value * 1000)
  {
  }
}
