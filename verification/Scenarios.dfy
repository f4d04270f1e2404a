/** Legal runs in which only peer A takes turns, with the default configuration of src/config.ts. */
module Scenarios {
  import opened Prelude
  import opened Codec
  import opened Protocol
  import opened Ping
  import opened Peers
  import opened Adapter
  import Auth
  import Http
  import Control

  const DEFAULTS := Config(Auth.Config(60, 5, 5), 5000, 1_800_000, 60, 5, "hub A", "hub B")

  const CFG := AdapterConfig(DEFAULTS, DEFAULTS)

  ghost predicate IsScene(s: AdapterState, p: PeerState, now: nat) {
    !s.crashed && s.now == now && s.a == p && s.b == INITIAL_PEER.(ping := s.b.ping)
  }

  /** A legal run from `s` ends at time `now` with peer A in state `p`. */
  ghost predicate Leads(s: AdapterState, run: seq<Move>, env: Environment, p: PeerState, now: nat) {
    Legal(s, run, CFG, env) && IsScene(After(s, run, CFG, env), p, now)
  }

  ghost predicate Reaches(s: AdapterState, env: Environment, p: PeerState, now: nat) {
    exists run :: Leads(s, run, env, p, now)
  }

  lemma {:induction false} OneMoreMove(s: AdapterState, run: seq<Move>, m: Move, cfg: AdapterConfig, env: Environment)
    requires Legal(s, run, cfg, env)
    requires CanMove(After(s, run, cfg, env), m) && Allows(env, After(s, run, cfg, env), m)
    ensures Legal(s, run + [m], cfg, env)
    ensures After(s, run + [m], cfg, env) == Step(After(s, run, cfg, env), m, cfg)
    decreases run
  {
    if run == [] {
      assert run + [m] == [m];
      assert [m][1..] == [];
    } else {
      OneMoreMove(Step(s, run[0], cfg), run[1..], m, cfg, env);
      assert (run + [m])[1..] == run[1..] + [m];
    }
  }

  lemma TurnOfA(s: AdapterState, p: PeerState, now: nat, ev: Event, turn: Turn)
    requires IsScene(s, p, now) && CanHappen(p, ev, now) && TakeTurn(p, ev, now, DEFAULTS) == turn
    requires !turn.crashed && !turn.out.PeerJws?
    ensures IsScene(Step(s, On(A, ev), CFG), turn.peer, now)
  {
  }

  /** Peer A takes a turn. */
  lemma Then(s: AdapterState, env: Environment, p: PeerState, now: nat, ev: Event, turn: Turn)
    requires Reaches(s, env, p, now) && CanHappen(p, ev, now) && AllowsTurn(env.a, p, ev, now)
    requires TakeTurn(p, ev, now, DEFAULTS) == turn && !turn.crashed && !turn.out.PeerJws?
    ensures Reaches(s, env, turn.peer, now)
  {
    var run :| Leads(s, run, env, p, now);
    OneMoreMove(s, run, On(A, ev), CFG, env);
    TurnOfA(After(s, run, CFG, env), p, now, ev, turn);
    assert Leads(s, run + [On(A, ev)], env, turn.peer, now);
  }

  /** Time passes. */
  lemma Later(s: AdapterState, env: Environment, p: PeerState, now: nat, ms: nat)
    requires Reaches(s, env, p, now) && NoneResuming(p) && (env.a.prompt ==> PromptUntil(p, now + ms))
    ensures Reaches(s, env, p, now + ms)
  {
    var run :| Leads(s, run, env, p, now);
    OneMoreMove(s, run, Tick(ms), CFG, env);
    assert Leads(s, run + [Tick(ms)], env, p, now + ms);
  }

  lemma NoMoves(s: AdapterState, env: Environment, p: PeerState, now: nat)
    requires IsScene(s, p, now)
    ensures Reaches(s, env, p, now)
  {
    assert Leads(s, [], env, p, now);
  }

  /**
   * Peer A can be stopped in state `p`, which a legal run leads to, so that a legal run from there leads to state `q`
   * at time `later`.
   */
  ghost predicate StopsInto(env: Environment, p: PeerState, now: nat, q: PeerState, later: nat) {
    && (exists history :: Reaches(INITIAL_ADAPTER, history, p, now))
    && CanHappen(p, Stop, now)
    && forall s :: IsScene(s, StopBegun(p, now), now) ==> Reaches(s, env, q, later)
  }

  // ---- Some turns -------------------------------------------------------------------------------------------------

  function CertsEvent(msg: Value): StateEvent
    requires IsCertsPayload(msg)
  {
    StateEvent(None, Some(ExtractCerts(msg)))
  }

  /** After a certificate message on socket `k`. */
  function AfterCerts(p: PeerState, k: nat, msg: Value, now: nat): PeerState
    requires IsCertsPayload(msg)
  {
    p.(http := Http.OnServerState(p.http, CertsEvent(msg), now), agent := Control.MessageReceived(p.agent, k, msg))
  }

  lemma CertsArrive(s: AdapterState, env: Environment, p: PeerState, now: nat, k: nat, msg: Value)
    requires Reaches(s, env, p, now) && Talking(p.agent, k) && IsCertsPayload(msg)
    requires env.a.spacedCerts ==> Http.SpacedAt(p.http, CertsEvent(msg))
    ensures Reaches(s, env, AfterCerts(p, k, msg, now), now)
  {
    CertsExactly(Some(msg), ExtractCerts(msg));
    Then(s, env, p, now, SocketMessage(k, Some(msg)),
         Turn(AfterCerts(p, k, msg, now), PingAuthDetails(CertsEvent(msg)), false));
  }

  /** After `loadCerts` resumed with the certificate message it got. */
  function AfterLoading(p: PeerState, r: nat, msg: Value, now: nat): PeerState
    requires IsCertsPayload(msg) && r in p.agent.receives
  {
    var loaded := p.(agent := Control.ReceiveResumed(p.agent, r),
      http := Http.OnServerState(p.http, CertsEvent(msg), now));
    if p.agent.receives[r].caller.Starter? then BecomeReady(loaded, now, DEFAULTS) else loaded
  }

  lemma CertsLoad(s: AdapterState, env: Environment, p: PeerState, now: nat, r: nat, msg: Value)
    requires Reaches(s, env, p, now) && IsCertsPayload(msg)
    requires r in p.agent.receives && p.agent.receives[r].Received? && p.agent.receives[r].msg == msg
    ensures Reaches(s, env, AfterLoading(p, r, msg, now), now)
  {
    Then(s, env, p, now, ResumeReceive(r),
         Turn(AfterLoading(p, r, msg, now), PingAuthDetails(CertsEvent(msg)), false));
  }

  /** After a start attempt got its token and `open()` made a new socket. */
  function AfterToken(p: PeerState, f: nat, expiresIn: nat, now: nat): PeerState
    requires f in p.auth.fetches
  {
    p.(auth := Auth.FetchDone(p.auth, f, Auth.Body("t", expiresIn, now), now, DEFAULTS.auth),
    agent := Control.Opened(p.agent, Control.Starter, now, 5000),
    http := Http.OnServerState(p.http, StateEvent(Some("t"), None), now))
  }

  lemma TokenTurn(p: PeerState, f: nat, expiresIn: nat, now: nat)
    requires f in p.auth.fetches && p.auth.fetches[f].awaited
    requires !Control.IsOpen(p.agent) && expiresIn > 0
    ensures Auth.GetOidcToken(Auth.Body("t", expiresIn, now)) == Auth.Token("t", expiresIn, now)
    ensures TokenFetched(p, f, Auth.Body("t", expiresIn, now), now, DEFAULTS)
            == Turn(AfterToken(p, f, expiresIn, now), PingAuthDetails(StateEvent(Some("t"), None)), false)
  {
  }

  lemma TokenComes(s: AdapterState, env: Environment, p: PeerState, now: nat, f: nat, expiresIn: nat)
    requires Reaches(s, env, p, now) && f in p.auth.fetches && p.auth.fetches[f].awaited
    requires !Control.IsOpen(p.agent) && expiresIn > 0 && (env.a.longTokens ==> expiresIn >= 31)
    ensures Reaches(s, env, AfterToken(p, f, expiresIn, now), now)
  {
    TokenTurn(p, f, expiresIn, now);
    Then(s, env, p, now, TokenFetch(f, Auth.Body("t", expiresIn, now)),
         Turn(AfterToken(p, f, expiresIn, now), PingAuthDetails(StateEvent(Some("t"), None)), false));
  }

  /** `close()` resumes for `stop()`, and the HTTP server stops. */
  lemma StopFinishes(s: AdapterState, env: Environment, p: PeerState, now: nat, c: nat)
    requires Reaches(s, env, p, now)
    requires c in p.agent.closes && p.agent.closes[c].settled && p.agent.closes[c].purpose.ForStop?
    ensures Reaches(s, env, StopEnded(Peers.CloseResumed(p, c, now, DEFAULTS)), now)
  {
    var closed := Peers.CloseResumed(p, c, now, DEFAULTS);
    Then(s, env, p, now, ResumeClose(c), Quiet(closed));
    Then(s, env, closed, now, ServerStopped, Quiet(StopEnded(closed)));
  }

  /** Socket `k` closes, so that the `close()` for `stop()` can resume. */
  lemma StopCompletes(s: AdapterState, env: Environment, p: PeerState, now: nat, k: nat, c: nat)
    requires Reaches(s, env, p, now) && Alive(p.agent, k)
    requires c in p.agent.closes && p.agent.closes[c].socket == Some(k) && p.agent.closes[c].purpose.ForStop?
    ensures var closed := p.(agent := Control.SocketClosed(p.agent, k, now, 5000));
            Reaches(s, env, StopEnded(Peers.CloseResumed(closed, c, now, DEFAULTS)), now)
  {
    var closed := p.(agent := Control.SocketClosed(p.agent, k, now, 5000));
    Then(s, env, p, now, SocketClose(k), Quiet(closed));
    StopFinishes(s, env, closed, now, c);
  }

  /** The same, when a clean-up waits for socket `k` to close as well. */
  function AfterBoth(p: PeerState, now: nat, k: nat, retry: nat, stop: nat): PeerState
    requires k < |p.agent.sockets| && retry in p.agent.closes && stop in p.agent.closes && retry != stop
  {
    var closed := p.(agent := Control.SocketClosed(p.agent, k, now, 5000));
    StopEnded(Peers.CloseResumed(Peers.CloseResumed(closed, retry, now, DEFAULTS), stop, now, DEFAULTS))
  }

  lemma BothComplete(s: AdapterState, env: Environment, p: PeerState, now: nat, k: nat, retry: nat, stop: nat)
    requires Reaches(s, env, p, now) && Alive(p.agent, k)
    requires retry in p.agent.closes && p.agent.closes[retry].socket == Some(k)
    requires stop in p.agent.closes && p.agent.closes[stop].socket == Some(k)
    requires p.agent.closes[retry].purpose.ForRetry? && p.agent.closes[stop].purpose.ForStop?
    ensures Reaches(s, env, AfterBoth(p, now, k, retry, stop), now)
  {
    var closed := p.(agent := Control.SocketClosed(p.agent, k, now, 5000));
    var retrying := Peers.CloseResumed(closed, retry, now, DEFAULTS);
    Then(s, env, p, now, SocketClose(k), Quiet(closed));
    Then(s, env, closed, now, ResumeClose(retry), Quiet(retrying));
    StopFinishes(s, env, retrying, now, stop);
  }

  lemma RetryOutlivesStop(p: PeerState, now: nat, k: nat, retry: nat, stop: nat)
    requires k < |p.agent.sockets| && retry in p.agent.closes && stop in p.agent.closes && retry != stop
    requires p.agent.closes[retry].purpose.ForRetry? && p.agent.closes[stop].purpose.ForStop?
    ensures AfterBoth(p, now, k, retry, stop).own.phase.Stopped?
    ensures AfterBoth(p, now, k, retry, stop).own.retries != map[]
  {
    assert p.own.next in AfterBoth(p, now, k, retry, stop).own.retries;
  }
}
