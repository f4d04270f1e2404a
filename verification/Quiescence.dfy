/** What `stop()` leaves behind in a peer. */
module Quiescence {
  import opened Prelude
  import opened Codec
  import opened Protocol
  import opened Ping
  import opened Peers
  import opened Adapter
  import opened Invariants
  import opened RetryMachine
  import opened Runs
  import Auth
  import Http
  import Control

  ghost predicate NoneConnecting(s: Control.AgentState) {
    forall k :: 0 <= k < |s.sockets| ==> !s.sockets[k].ready.Connecting?
  }

  /** At most the current socket, which `close()` will close, is still connecting. */
  ghost predicate OnlyCurrentConnecting(s: Control.AgentState) {
    forall k :: 0 <= k < |s.sockets| && s.sockets[k].ready.Connecting? ==> s.ws == Some(k)
  }

  /** A quiet point: no token request, superseded connection, `loadCerts` or clean-up is in flight. */
  ghost predicate AtRest(p: PeerState) {
    p.auth.fetches == map[] && p.agent.receives == map[] && p.agent.closes == map[] && OnlyCurrentConnecting(p.agent)
  }

  ghost predicate NoTimers(p: PeerState) {
    && p.auth.timers == map[] && p.auth.fetches == map[]
    && p.agent.watch.pings == map[] && p.agent.receives == map[] && p.agent.closes == map[]
    && p.own.retries == map[] && p.own.jwsLoops == map[]
    && p.http.timers == map[]
  }

  /** What holds from a `stop()` at a quiet point on. */
  ghost predicate Stopping(p: PeerState) {
    && !p.own.phase.Running? && p.own.started && !p.own.jwsListeners
    && AuthAtRest(p.auth) && AgentStopping(p.agent)
    && p.own.retries == map[] && p.own.jwsLoops == map[]
    && (p.http.listening ==> Http.AllStoppable(p.http))
    && (!p.http.listening ==> p.http.timers == map[])
  }

  ghost predicate AuthAtRest(s: Auth.AuthState) {
    s.timers == map[] && s.fetches == map[]
  }

  ghost predicate AgentStopping(s: Control.AgentState) {
    && s.watch.pings == map[] && !s.watch.armed && !s.shouldReconnect
    && s.receives == map[] && NoneConnecting(s)
    && (forall c :: c in s.closes ==> s.closes[c].purpose.ForStop?)
  }

  lemma ClosingForStops(s: Control.AgentState, now: nat, timeout: int)
    requires Control.WatchInv(s.watch, timeout, now) && s.receives == map[]
             && s.closes == map[] && OnlyCurrentConnecting(s)
    ensures AgentStopping(Control.ClosingFor(s, Control.ForStop, now))
  {
    Control.ClosingForKeeps(s, Control.ForStop, now, timeout);
  }

  /** `stop()` at a quiet point, with a single refresh loop and no destruction out of reach. */
  lemma StopBegins(p: PeerState, now: nat, cfg: Config)
    requires PeerInv(p, now, cfg) && p.own.started && p.own.phase.Running?
    requires AtRest(p) && Auth.AllStoppable(p.auth) && Http.AllStoppable(p.http)
    ensures Stopping(StopBegun(p, now))
  {
    var st :| InStage(p, st);
    ClosingForStops(p.agent, now, cfg.timeout);
    Auth.StopLeavesNone(p.auth);
    assert Clear(p.own.retries, p.own.retryStartTimer) == map[];
    assert Clear(p.own.jwsLoops, p.own.peerJwsRefreshLoopTimer) == map[];
  }

  lemma AgentTurnWhileStopping(p: PeerState, ev: Event, now: nat, cfg: Config)
    requires CanHappen(p, ev, now) && Stopping(p) && !ev.SocketPing?
    ensures AgentStopping(TakeTurn(p, ev, now, cfg).peer.agent)
  {
  }

  lemma HttpWhileStopping(p: PeerState, ev: Event, now: nat, cfg: Config)
    requires CanHappen(p, ev, now) && Stopping(p) && PeerInv(p, now, cfg) && !ev.SocketPing?
    requires ev.SocketMessage? && Handle(ev.msg).OnCert? ==>
               Http.SpacedAt(p.http, StateEvent(None, Some(Handle(ev.msg).certs)))
    ensures var h := TakeTurn(p, ev, now, cfg).peer.http;
            (h.listening ==> Http.AllStoppable(h)) && (!h.listening ==> h.timers == map[])
  {
    HttpTurn(p, ev, now, cfg);
    if ev.SocketMessage? && Handle(ev.msg).OnCert? && p.http.listening {
      Http.SpacedStaysStoppable(p.http, StateEvent(None, Some(Handle(ev.msg).certs)), now);
    }
    if ev.ServerStopped? {
      Http.StopLeavesNone(p.http);
    }
  }

  lemma OwnWhileStopping(p: PeerState, ev: Event, now: nat, cfg: Config)
    requires CanHappen(p, ev, now) && Stopping(p) && !ev.SocketPing?
    ensures var p' := TakeTurn(p, ev, now, cfg).peer;
            && !p'.own.phase.Running? && p'.own.started && !p'.own.jwsListeners && AuthAtRest(p'.auth)
            && p'.own.retries == map[] && p'.own.jwsLoops == map[]
  {
  }

  lemma TurnKeepsStopping(p: PeerState, ev: Event, now: nat, cfg: Config)
    requires CanHappen(p, ev, now) && Stopping(p) && PeerInv(p, now, cfg) && !ev.SocketPing?
    requires ev.SocketMessage? && Handle(ev.msg).OnCert? ==>
               Http.SpacedAt(p.http, StateEvent(None, Some(Handle(ev.msg).certs)))
    ensures Stopping(TakeTurn(p, ev, now, cfg).peer)
  {
    AgentTurnWhileStopping(p, ev, now, cfg);
    HttpWhileStopping(p, ev, now, cfg);
    OwnWhileStopping(p, ev, now, cfg);
  }

  lemma SentKeepsStopping(p: PeerState, p': PeerState)
    requires Stopping(p)
    requires p'.own == p.own && p'.auth == p.auth && p'.http == p.http && p'.agent == p.agent.(sent := p'.agent.sent)
    ensures Stopping(p')
  {
  }

  lemma StepKeepsStopping(s: AdapterState, m: Move, cfg: AdapterConfig, env: Environment, x: Side)
    requires CanMove(s, m) && Allows(env, s, m) && env.Of(x).noLatePing && env.Of(x).spacedCerts
    requires AdapterInv(s, cfg) && Stopping(s.Peer(x))
    ensures Stopping(Step(s, m, cfg).Peer(x))
  {
    StepLocal(s, m, cfg, x);
    if m.On? && m.side == x {
      TurnKeepsStopping(s.Peer(x), m.ev, s.now, cfg.Of(x));
    } else {
      SentKeepsStopping(s.Peer(x), Step(s, m, cfg).Peer(x));
    }
  }

  lemma {:induction false} RunKeepsStopping(
    s: AdapterState, run: seq<Move>, cfg: AdapterConfig, env: Environment, x: Side)
    requires env.Of(x).noLatePing && env.Of(x).spacedCerts && AdapterInv(s, cfg)
    requires Legal(s, run, cfg, env) && Stopping(s.Peer(x))
    ensures Stopping(After(s, run, cfg, env).Peer(x))
    decreases run
  {
    if run != [] {
      StepKeepsStopping(s, run[0], cfg, env, x);
      StepKeepsInv(s, run[0], cfg);
      RunKeepsStopping(Step(s, run[0], cfg), run[1..], cfg, env, x);
    }
  }

  /** An event of a socket that is not closed yet. */
  predicate OfLiveSocket(p: PeerState, ev: Event) {
    match ev
    case SocketPing(k) => Talking(p.agent, k)
    case SocketMessage(k, _) => Talking(p.agent, k)
    case SocketClose(k) => Alive(p.agent, k)
    case SocketError(k) => Alive(p.agent, k)
    case _ => false
  }

  lemma NothingLeft(p: PeerState, now: nat, cfg: Config)
    requires Stopping(p) && PeerInv(p, now, cfg) && p.own.phase.Stopped?
    ensures NothingPending(p)
  {
    assert forall c :: c in p.agent.closes ==> false;
  }

  /** No timer, request or promise is pending, and nothing can ever happen but events of live sockets. */
  ghost predicate NothingPending(p: PeerState) {
    NoTimers(p) && forall ev, later :: CanHappen(p, ev, later) ==> OfLiveSocket(p, ev)
  }

  /** At rest, with one refresh loop at most, and more than 5 s after the last rotation. */
  ghost predicate MayStop(p: PeerState, now: nat) {
    AtRest(p) && Auth.AllStoppable(p.auth) && Http.SettledAt(p.http, now)
  }

  ghost predicate StopsAtRest(s: AdapterState, run: seq<Move>, x: Side) {
    run != [] && run[0] == On(x, Stop) && MayStop(s.Peer(x), s.now)
  }

  lemma StopsQuietly(s: AdapterState, run: seq<Move>, cfg: AdapterConfig, env: Environment, x: Side)
    requires env.Of(x).noLatePing && env.Of(x).spacedCerts && AdapterInv(s, cfg) && Legal(s, run, cfg, env)
    requires StopsAtRest(s, run, x)
    ensures After(s, run, cfg, env).Peer(x).own.phase.Stopped? ==> NothingPending(After(s, run, cfg, env).Peer(x))
  {
    Http.SettledIsStoppable(s.Peer(x).http, s.now);
    StopBegins(s.Peer(x), s.now, cfg.Of(x));
    StepLocal(s, run[0], cfg, x);
    StepKeepsInv(s, run[0], cfg);
    RunKeepsStopping(Step(s, run[0], cfg), run[1..], cfg, env, x);
    RunKeepsInv(s, run, cfg, env);
    var last := After(s, run, cfg, env);
    if last.Peer(x).own.phase.Stopped? {
      NothingLeft(last.Peer(x), last.now, cfg.Of(x));
    }
  }

  /**
   * A peer that is stopped at a quiet point, with one refresh loop at most and more than 5 s after its last rotation,
   * leaves nothing behind, whatever happened before: if no ping follows its `close()` and its hub's certificates come
   * only while no agent awaits its destruction, then when `stop()` has completed the peer has no pending timer, request
   * or promise, and nothing ever happens to it but events of sockets that its hub has not closed yet.
   */
  lemma QuiescentAfterStop(
    before: seq<Move>, after: seq<Move>, cfg: AdapterConfig, history: Environment, env: Environment, x: Side)
    requires Legal(INITIAL_ADAPTER, before, cfg, history)
    requires Legal(After(INITIAL_ADAPTER, before, cfg, history), after, cfg, env)
    ensures var s := After(INITIAL_ADAPTER, before, cfg, history);
            var p := After(s, after, cfg, env).Peer(x);
            env.Of(x).noLatePing && env.Of(x).spacedCerts && StopsAtRest(s, after, x) && p.own.phase.Stopped? ==>
              NothingPending(p)
  {
    InitiallyInv(cfg);
    RunKeepsInv(INITIAL_ADAPTER, before, cfg, history);
    var s := After(INITIAL_ADAPTER, before, cfg, history);
    if env.Of(x).noLatePing && env.Of(x).spacedCerts && StopsAtRest(s, after, x) {
      StopsQuietly(s, after, cfg, env, x);
    }
  }

  /**
   * What such a late event can still do. A message may end the process, on the same conditions as ever. Otherwise it
   * changes nothing but the listener it uses up; and of the certificates or JWS keys it may announce only the
   * certificates get anywhere, namely to the other peer's ping service.
   */
  lemma LateMessage(p: PeerState, k: nat, msg: Option<Value>, now: nat, cfg: Config, other: PeerState)
    requires Stopping(p) && p.own.phase.Stopped? && !p.http.listening && CanHappen(p, SocketMessage(k, msg), now)
    ensures var turn := TakeTurn(p, SocketMessage(k, msg), now, cfg);
            && (turn.crashed <==> msg == Some(Null) || (msg.None? && k in p.agent.listeners))
            && (turn.out == Nothing <==> !Handle(msg).OnCert? && !Handle(msg).OnPeerJws?)
            && turn.peer == p.(agent := p.agent.(sent := turn.peer.agent.sent, listeners := turn.peer.agent.listeners))
            && (Listen(other, turn.out, turn.peer) != other ==>
                  Handle(msg).OnCert? && turn.out == PingAuthDetails(StateEvent(None, Some(Handle(msg).certs))))
  {
    ThrowsExactlyOnNull(msg);
    var turn := TakeTurn(p, SocketMessage(k, msg), now, cfg);
    assert turn.peer.agent.receives == map[];
  }
}
