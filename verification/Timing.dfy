/** How soon a peer recovers: the gap between start attempts. */
module Timing {
  import opened Prelude
  import opened Peers
  import opened Adapter
  import opened Invariants
  import opened RetryMachine
  import opened Runs
  import Auth
  import Control

  // ---- From a failed attempt to the next --------------------------------------------------------------------------

  /** A failed attempt is cleaned up within 5 s of its failure, and tried again the retry delay after that. */
  ghost predicate RecoveryInv(p: PeerState, now: nat, cfg: Config) {
    && (forall c :: c in p.agent.closes ==> CloseInTime(p.agent.closes[c], now))
    && (forall t :: t in p.own.retries ==> RetryInTime(p.own.retries[t], now, cfg))
  }

  ghost predicate CloseInTime(c: Control.Close, now: nat) {
    && now <= c.due
    && (c.purpose.ForRetry? ==> c.purpose.failedAt <= now && c.due == c.purpose.failedAt + 5000)
  }

  ghost predicate RetryInTime(r: Retry, now: nat, cfg: Config) {
    && now <= r.due
    && r.failedAt + RetryDelay(r.dns, cfg) <= r.due
    && r.due <= r.failedAt + 5000 + RetryDelay(r.dns, cfg)
  }

  lemma RetriesTurn(p: PeerState, ev: Event, now: nat, cfg: Config)
    requires CanHappen(p, ev, now)
    ensures var own, own' := p.own, TakeTurn(p, ev, now, cfg).peer.own;
            match ev
            case ResumeClose(c) =>
              own'.retries ==
              (match p.agent.closes[c].purpose
               case ForRetry(dns, failedAt) => own.retries[own.next := Retry(now + RetryDelay(dns, cfg), failedAt, dns)]
               case ForStop => own.retries)
            case RetryTimer(t) => own'.retries == own.retries - {t}
            case Stop => own'.retries == Clear(own.retries, own.retryStartTimer)
            case _ => own'.retries == own.retries
  {
  }

  lemma TurnKeepsRecovery(p: PeerState, ev: Event, now: nat, cfg: Config)
    requires CanHappen(p, ev, now) && RecoveryInv(p, now, cfg)
    ensures RecoveryInv(TakeTurn(p, ev, now, cfg).peer, now, cfg)
  {
    ClosesTurn(p, ev, now, cfg);
    RetriesTurn(p, ev, now, cfg);
  }

  lemma StepKeepsRecovery(s: AdapterState, m: Move, cfg: AdapterConfig, env: Environment, x: Side)
    requires CanMove(s, m) && Allows(env, s, m) && env.Of(x).prompt && RecoveryInv(s.Peer(x), s.now, cfg.Of(x))
    ensures RecoveryInv(Step(s, m, cfg).Peer(x), Step(s, m, cfg).now, cfg.Of(x))
  {
    StepLocal(s, m, cfg, x);
    if m.On? && m.side == x {
      TurnKeepsRecovery(s.Peer(x), m.ev, s.now, cfg.Of(x));
    }
  }

  lemma {:induction false} RunKeepsRecovery(
    s: AdapterState, run: seq<Move>, cfg: AdapterConfig, env: Environment, x: Side)
    requires Legal(s, run, cfg, env) && env.Of(x).prompt && RecoveryInv(s.Peer(x), s.now, cfg.Of(x))
    ensures RecoveryInv(After(s, run, cfg, env).Peer(x), After(s, run, cfg, env).now, cfg.Of(x))
    decreases run
  {
    if run != [] {
      StepKeepsRecovery(s, run[0], cfg, env, x);
      RunKeepsRecovery(Step(s, run[0], cfg), run[1..], cfg, env, x);
    }
  }

  /** With prompt timers, the next attempt starts between the retry delay and that delay plus 5 s after the failure. */
  lemma RetryGap(run: seq<Move>, cfg: AdapterConfig, env: Environment, x: Side, t: nat)
    requires env.Of(x).prompt && Legal(INITIAL_ADAPTER, run, cfg, env)
    ensures var s := After(INITIAL_ADAPTER, run, cfg, env);
            CanHappen(s.Peer(x), RetryTimer(t), s.now) ==>
              var retry := s.Peer(x).own.retries[t];
              var delay := Delay(1000 * if retry.dns then cfg.Of(x).retryDnsSec else cfg.Of(x).retryStartSec);
              retry.failedAt + delay <= s.now <= retry.failedAt + 5000 + delay
  {
    RunKeepsRecovery(INITIAL_ADAPTER, run, cfg, env, x);
  }

  /**
   * When the first token request of an attempt fails, the attempt's retry and the refresh loop judge the error alike;
   * and the loop is ended in the same turn, so that only the retry remains.
   */
  lemma FailedTokenFetch(p: PeerState, f: nat, r: Auth.Response, now: nat, cfg: Config)
    requires f in p.auth.fetches && p.auth.fetches[f].awaited && AuthInv(p.auth)
    requires !Auth.BringsToken(r)
    ensures var p' := TokenFetched(p, f, r, now, cfg).peer;
            var dns := Auth.IsDnsFailure(r);
            && p.agent.next in p'.agent.closes
            && p'.agent.closes[p.agent.next].purpose == Control.ForRetry(dns, now)
            && Auth.UpdateTimeoutSec(Auth.GetOidcToken(r), cfg.auth)
               == (if dns then cfg.auth.retryDnsSec else cfg.auth.retrySec)
            && Auth.Stopped(p'.auth, p.auth.fetches[f].loop)
            && p'.auth.timers == p.auth.timers
  {
    Auth.SameDnsVerdict(r, cfg.auth);
    var a := Auth.FetchDone(p.auth, f, r, now, cfg.auth);
    assert p.auth.next !in p.auth.timers;
    assert a.timers - {p.auth.next} == p.auth.timers;
  }

  // ---- Every retry follows the attempt that failed last -----------------------------------------------------------

  datatype Failure = Failure(dns: bool, at: nat)

  function FailureAfter(s: AdapterState, m: Move, x: Side, last: Option<Failure>): Option<Failure> {
    if m.On? && m.side == x && FailureOf(s.Peer(x), m.ev).Some?
    then Some(Failure(FailureOf(s.Peer(x), m.ev).value, s.now))
    else last
  }

  /** The last failure of a start attempt of peer `x` in a run, or `last` if there is none. */
  ghost function LastFailure(
    s: AdapterState, run: seq<Move>, cfg: AdapterConfig, env: Environment,
    x: Side, last: Option<Failure>): Option<Failure>
    requires Legal(s, run, cfg, env)
    decreases run
  {
    if run == [] then last
    else LastFailure(Step(s, run[0], cfg), run[1..], cfg, env, x, FailureAfter(s, run[0], x, last))
  }

  /** Whatever is being cleaned up or waits to be tried again is the last attempt that failed. */
  ghost predicate FollowsFailure(p: PeerState, last: Option<Failure>) {
    p.own.phase.Running? ==>
      && (forall c :: c in p.agent.closes && p.agent.closes[c].purpose.ForRetry? ==>
            last == Some(Failure(p.agent.closes[c].purpose.dns, p.agent.closes[c].purpose.failedAt)))
      && (forall t :: t in p.own.retries ==> last == Some(Failure(p.own.retries[t].dns, p.own.retries[t].failedAt)))
  }

  /** An attempt fails only while nothing is cleaned up and no retry is pending. */
  lemma FailsAlone(p: PeerState, ev: Event, now: nat)
    requires StageInv(p) && p.own.phase.Running? && CanHappen(p, ev, now) && FailureOf(p, ev).Some?
    ensures forall c :: c in p.agent.closes ==> !p.agent.closes[c].purpose.ForRetry?
    ensures p.own.retries == map[]
  {
    var st :| InStage(p, st);
    assert st.Fetching? || st.Opening? || st.Loading?;
  }

  lemma TurnFollowsFailure(p: PeerState, ev: Event, now: nat, cfg: Config, last: Option<Failure>)
    requires CanHappen(p, ev, now) && StageInv(p) && FollowsFailure(p, last)
    ensures var failure := FailureOf(p, ev);
            FollowsFailure(TakeTurn(p, ev, now, cfg).peer,
                           if failure.Some? then Some(Failure(failure.value, now)) else last)
  {
    PhaseTurn(p, ev, now, cfg);
    if TakeTurn(p, ev, now, cfg).peer.own.phase.Running? {
      ClosesTurn(p, ev, now, cfg);
      RetriesTurn(p, ev, now, cfg);
      if FailureOf(p, ev).Some? {
        FailsAlone(p, ev, now);
      }
    }
  }

  lemma StepFollowsFailure(s: AdapterState, m: Move, cfg: AdapterConfig, x: Side, last: Option<Failure>)
    requires CanMove(s, m) && AdapterInv(s, cfg) && FollowsFailure(s.Peer(x), last)
    ensures FollowsFailure(Step(s, m, cfg).Peer(x), FailureAfter(s, m, x, last))
  {
    StepLocal(s, m, cfg, x);
    if m.On? && m.side == x {
      TurnFollowsFailure(s.Peer(x), m.ev, s.now, cfg.Of(x), last);
    }
  }

  lemma {:induction false} RunFollowsFailure(
    s: AdapterState, run: seq<Move>, cfg: AdapterConfig, env: Environment, x: Side, last: Option<Failure>)
    requires AdapterInv(s, cfg) && Legal(s, run, cfg, env) && FollowsFailure(s.Peer(x), last)
    ensures FollowsFailure(After(s, run, cfg, env).Peer(x), LastFailure(s, run, cfg, env, x, last))
    decreases run
  {
    if run != [] {
      StepFollowsFailure(s, run[0], cfg, x, last);
      StepKeepsInv(s, run[0], cfg);
      RunFollowsFailure(Step(s, run[0], cfg), run[1..], cfg, env, x, FailureAfter(s, run[0], x, last));
    }
  }

  /**
   * After every run, a retry of a peer that is not stopped follows the attempt that failed last: it counts from the
   * moment of that failure, and takes the DNS delay exactly when that failure was DNS-related (see `FailureOf` for all
   * failures).
   */
  lemma RetryFollowsFailure(run: seq<Move>, cfg: AdapterConfig, env: Environment, x: Side, t: nat)
    requires Legal(INITIAL_ADAPTER, run, cfg, env)
    ensures var p := After(INITIAL_ADAPTER, run, cfg, env).Peer(x);
            p.own.phase.Running? && t in p.own.retries ==>
              LastFailure(INITIAL_ADAPTER, run, cfg, env, x, None)
              == Some(Failure(p.own.retries[t].dns, p.own.retries[t].failedAt))
  {
    InitiallyInv(cfg);
    RunFollowsFailure(INITIAL_ADAPTER, run, cfg, env, x, None);
  }
}
