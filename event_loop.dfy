/**
 * The server over time: a run is a sequence of events handled one after the
 * other, each request with the outcomes its asynchronous calls settle with.
 */
module EventLoop {
  import opened Wrappers
  import opened TokenLifecycle
  import opened Gateway

  datatype Event =
    | Arrives(req: Request, at: int, remote: Remote, result: Option<Grant>)
    | RenewalFires(handle: nat)

  function Step(cfg: Config, s: Session, e: Event): Session {
    match e
    case Arrives(req, at, remote, result) => Serve(cfg, s, req, at, remote, result).next
    case RenewalFires(handle) => AfterRenewalFires(s, handle)
  }

  function Run(cfg: Config, s: Session, events: seq<Event>): Session
    decreases |events|
  {
    if events == [] then s else Run(cfg, Step(cfg, s, events[0]), events[1..])
  }

  /**
   * Every event keeps the client in step with the record and keeps the timers
   * consistent: one live timer at most, no cancelled or repeated firing.
   */
  lemma {:induction false} RunKeepsConsistent(cfg: Config, s: Session, events: seq<Event>)
    requires Consistent(s)
    ensures Consistent(Run(cfg, s, events))
    decreases |events|
  {
    if events != [] {
      RunKeepsConsistent(cfg, Step(cfg, s, events[0]), events[1..]);
    }
  }

  /**
   * From process start, however requests, exchanges and timer firings
   * interleave: at most one renewal timer is live, and it is the one held in
   * refreshTokenTimeout; no timer cleared by setTokens ever fires; no timer
   * fires twice; every fired handle was handed out by setTimeout.
   */
  lemma NoDoubleFire(cfg: Config, data: AppData, now: int, events: seq<Event>)
    ensures var r := Run(cfg, Startup(cfg, data, now), events);
      && (forall h :: h in r.live ==> r.timeout == Some(h))
      && (forall i :: 0 <= i < |r.fired| ==> r.fired[i] < r.timersArmed && r.fired[i] !in r.cancelled)
      && (forall i, j :: 0 <= i < j < |r.fired| ==> r.fired[i] != r.fired[j])
  {
    RunKeepsConsistent(cfg, Startup(cfg, data, now), events);
  }

  /**
   * Only the callback route changes the tokens: a run of other requests and
   * timer firings leaves the client's tokens and the record as they were, so
   * the validity answer at every time is unchanged.
   */
  lemma {:induction false} OnlyCallbackChangesTokens(cfg: Config, s: Session, events: seq<Event>)
    requires forall i :: 0 <= i < |events| && events[i].Arrives? ==> events[i].req.path != CallbackRoute
    ensures Run(cfg, s, events).clientAccess == s.clientAccess
    ensures Run(cfg, s, events).clientRefresh == s.clientRefresh
    ensures Run(cfg, s, events).appData == s.appData
    ensures forall at :: SessionValid(cfg, Run(cfg, s, events), at) == SessionValid(cfg, s, at)
    decreases |events|
  {
    if events != [] {
      var rest := events[1..];
      assert forall i :: 0 <= i < |rest| && rest[i].Arrives? ==> rest[i].req.path != CallbackRoute by {
        forall i | 0 <= i < |rest| && rest[i].Arrives?
          ensures rest[i].req.path != CallbackRoute
        {
          assert rest[i] == events[i + 1];
        }
      }
      OnlyCallbackChangesTokens(cfg, Step(cfg, s, events[0]), rest);
    }
  }
}
