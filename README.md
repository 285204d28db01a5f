# Spotify API token gateway — Dafny model

This project models the token lifecycle and the request gating of a small
Express backend. The backend gets an OAuth2 authorization-code token from
Spotify, stores it in `appdata.json`, arms a timer to renew it, and proxies
three read endpoints. Every request except the one to the configured
redirect path must first pass a token-validity gate.

Network results, the clock and timer firings are inputs to the model.
Once they are, every rule is sequential and deterministic:

- `wrappers.dfy`: `Option`, which stands for a JavaScript property that may be `undefined`.
- `token_lifecycle.dfy`, module `TokenLifecycle`, holds:
  - the config and `appData` records;
  - `isTokenValid`;
  - the renewal delay as JavaScript computes it. It may be `NaN`.
  - the startup arming of the renewal timer;
  - the state transition `setTokens` performs once its exchange settles;
  - the firing of the renewal timer;
  - timers with identities: each `setTimeout` hands out a fresh handle; `clearTimeout` cancels the held handle if it is still live; the runtime may fire any live timer;
  - the invariant `Consistent`. It says the client holds the record's tokens, at most one timer is live and it is the one held in `refreshTokenTimeout`, no cancelled timer has fired, and no timer has fired twice.
- `gateway.dfy`, module `Gateway`, holds:
  - the global gate;
  - the `/callback` checks and handler;
  - `spotifyErrorHandler`;
  - the proxied routes;
  - `Serve`, which is the gate followed by the route.
- `event_loop.dfy`, module `EventLoop`, holds runs of events handled one after another. Its lemmas are proved by induction over the run.
- `server.dfy`, module `Server`, holds the class `TokenManager`. Its fields are the module-level state of `index.js`: the client's tokens, `appData` and `refreshTokenTimeout`. A counter stands for the runtime's timer handles. Ghost fields record the live timers, the cancelled and fired handles, and the codes sent to the exchange. Each method is proved to perform the matching transition of `TokenLifecycle` or `Gateway` and to keep `Consistent`.

Two quirks of the source are kept:

- The anticipation margin falls back to 0 only inside the validity check. Both timer delays subtract the raw setting, so a missing setting gives a `NaN` delay (`MissingAnticipationGivesNaNDelay`).
- The gate exempts `config.spotify_redirect`, but the callback route is registered on the literal `/callback`. These are two separate values here: `Config.redirectPath` and `Gateway.CallbackRoute`. When they differ and no token is valid, the callback itself is redirected and no code is exchanged (`CallbackGatedWhenPathsDiffer`).

## Model

| member | source | states |
|---|---|---|
| TokenLifecycle.TokenValid | index.js:26-40 | valid iff `now` + margin < expiration epoch and both client tokens are present and non-empty; the margin is the anticipation setting, or 0 when it is absent |
| TokenLifecycle.ValidUntilThreshold | index.js:26-40 | with the state unchanged, a valid answer at some time is also valid at every earlier time; from expiry minus margin onward the answer is always invalid |
| TokenLifecycle.Startup | index.js:42-53 | the client starts with the loaded record's tokens; a timer is armed and held iff the loaded token is valid, and then it is the only live timer; its delay is expiry − now − the raw anticipation, or NaN when that setting is absent; the invariant holds |
| TokenLifecycle.AfterExchange | index.js:59-95 | the code is always sent to the provider; on failure nothing else changes; on success the client and the record both hold the received tokens, acquisition = now, expiry − acquisition = expires_in × 1000 (expiry 0 when expires_in does not parse), the previously held timer is cancelled if still live, and a fresh handle is held; from a consistent state that new timer is then the only live one; its delay is expiry − now − anticipation (NaN without the setting); the invariant is kept |
| TokenLifecycle.ClearTimeout | index.js:77 | exactly the held handle stops being live: every other live timer stays live with its delay; the held handle joins the cancelled set iff it was live; the tokens, the record, the held handle, the handle counter, the fired log and the code log stay as they were |
| TokenLifecycle.SetTimeout | index.js:78-81 | a fresh handle (the counter's value) is held and live with the given delay; the counter advances by one; every other live timer keeps its delay; the tokens, the record, the cancelled set, the fired log and the code log stay as they were |
| TokenLifecycle.AfterRenewalFires | index.js:44-52 | covers the callback of the startup timer (index.js:44-52) and of the timer armed in setTokens (index.js:78-80); only a live timer fires; from a consistent state it is the held one; it stops being live and is logged as one refresh request; it arms no successor, leaves `refreshTokenTimeout` as it was, and changes no token or record field; a timer that is not live changes nothing; the invariant is kept |
| TokenLifecycle.RenewalDueWhenValidityEnds | index.js:73-81 | after a successful exchange that has an anticipation setting, the new live timer's delay is lifetime − anticipation; the new token is valid exactly until now + that delay |
| TokenLifecycle.MissingAnticipationGivesNaNDelay | index.js:27 | with no anticipation setting, validity after an exchange lasts the full lifetime but the new timer's delay is NaN |
| Gateway.Gate | index.js:112-122 | the redirect path always passes; any other path passes iff the token is valid; otherwise it redirects to the authorize URL built from the configured scopes and state |
| Gateway.Callback | index.js:128-145 | an error parameter is checked first, then a missing or empty code, then a state that is not exactly the configured one; the exchange is chosen iff all three checks pass, and it gets the received non-empty code |
| Gateway.CallbackHandled | index.js:128-145 | a rejected query gets 500 "An error occurred" and the session is unchanged; an accepted query sends its code to the exchange exactly once and gets the success page whatever the exchange's outcome |
| Gateway.CallbackAnswerIgnoresExchange | index.js:141-144 | the callback's response does not depend on how the started exchange settles |
| Gateway.SpotifyErrorHandler | index.js:102-110 | 302 with the authorize URL as its body iff statusCode is 401 and the message is 'Unauthorized'; otherwise 500 with the error as the body |
| Gateway.Relay | index.js:147-181 | a proxied read that succeeds gives 200 with the provider's body; a failed one gets exactly the response of `spotifyErrorHandler`: 302 with the authorize URL as its body for a 401 'Unauthorized', otherwise 500 with the error as its body; it is never 200 |
| Gateway.Serve | index.js:112-181 | a gated request with an invalid token is redirected and no route runs; a request that passes the gate reaches the callback handler or the relay; only an accepted `/callback` request changes the session; the invariant is kept |
| Gateway.CallbackGatedWhenPathsDiffer | index.js:113-128 | if the configured redirect path is not `/callback` and no token is valid, a `/callback` request is redirected and the session is unchanged |
| EventLoop.RunKeepsConsistent | index.js:42-95 | over any sequence of requests, settled exchanges and timer firings, the client keeps the record's tokens and the timer invariant holds |
| EventLoop.NoDoubleFire | index.js:77-81 | from process start, in any run: at most one timer is live, and it is the one held in `refreshTokenTimeout`; no timer cancelled by `clearTimeout` ever fires; no timer fires twice; every fired handle was handed out by `setTimeout` |
| EventLoop.OnlyCallbackChangesTokens | index.js:112-181 | a run with no `/callback` request leaves the client's tokens and the record unchanged, so the validity answer at every time is also unchanged |
| Server.TokenManager.constructor | index.js:42-53 | the object's state is `Startup` of the loaded config and record, and the invariant holds |
| Server.TokenManager.SetTokens | index.js:59-95 | the fields are updated in place to `AfterExchange` of their old values, and the invariant is kept |
| Server.TokenManager.RenewalTimerFires | index.js:44-52 | covers the callback of the startup timer (index.js:44-52) and of the timer armed in setTokens (index.js:78-80); the fields become `AfterRenewalFires` of their old values for the firing handle, and the invariant is kept |
| Server.TokenManager.HandleCallback | index.js:128-145 | the response and the new fields are those of `CallbackHandled`; `SetTokens` is called only on the accepted branch |
| Server.TokenManager.Handle | index.js:112-181 | the response and the new fields are those of `Serve` |

## Left out

- Express: only GET requests are modelled, and paths are matched exactly. Express's case-insensitive, trailing-slash-tolerant matching, its headers, and the body of its 404 page are reduced to a `NoRoute` value.
- Static pages (`index.html`, `success.html`) appear only as file names in a 200 response.
- Network calls: `authorizationCodeGrant`, `refreshAccessToken`, `getArtist`, `getArtistAlbums` and `getMe` are foreign asynchronous I/O. Their settled outcome is an input. `createAuthorizeURL` is an opaque value built from the scopes and the state.
- The async exchange is applied in the same step as the callback request that starts it. Interleaving other requests between a call and its settling, or during a timer's refresh, is not modelled.
- Timer semantics: when a timer fires is not modelled. A `NaN` or negative delay is recorded, not interpreted. The firing of any live timer is an event. The refresh it requests is only logged, because the source stores nothing from it. Timer handles are modelled as consecutive numbers.
- Persistence: `fs.writeFile` of `appData` and its possible failure are not modelled. The failure is only logged and does not change in-memory state. Loading `config.json` and `appdata.json` is also not modelled: the loaded values are constructor parameters.
- The persisted record's epochs are integers. A record that lacks `token_expiration_epoch` would make the comparison with `undefined` false; that case is not modelled.
- The clock: one `now` is used per handler, but the source reads `Date.now()` several times within one handler.
- `parseInt` is represented by an `Option<int>` for `expires_in`, where None stands for NaN. A grant body missing its token fields is not modelled.
- Query parameters given more than once (arrays in Express) are not modelled.
- Console logging is not modelled.
