/** The two peers wired together by src/domain/InterSchemeProxyAdapter.ts, and the runs of the whole adapter. */
module Adapter {
  import opened Prelude
  import opened Protocol
  import opened Ping
  import opened Peers
  import Auth
  import Http

  datatype AdapterState = AdapterState(now: nat, a: PeerState, b: PeerState, crashed: bool) {
    function Peer(side: Side): PeerState {
      if side == A then a else b
    }

    function With(side: Side, p: PeerState): AdapterState {
      if side == A then this.(a := p) else this.(b := p)
    }
  }

  datatype AdapterConfig = AdapterConfig(a: Config, b: Config) {
    function Of(side: Side): Config {
      if side == A then a else b
    }
  }

  const INITIAL_ADAPTER := AdapterState(0, INITIAL_PEER, INITIAL_PEER, false)

  /** Time passes, or one peer takes a turn. */
  datatype Move = Tick(ms: nat) | On(side: Side, ev: Event)

  /** What the adapter's listeners do to the other peer when a turn of the first one emitted `out`. */
  function Listen(p: PeerState, out: Out, emitter: PeerState): PeerState {
    match out
    case Nothing => p
    case PingAuthDetails(details) => UpdatePing(p, details)
    case PeerJws(peerJws) => if emitter.own.jwsListeners then Propagate(p, peerJws) else p
  }

  /** The state after peer `side` took `turn` and the listeners ran, in the same turn of the event loop. */
  function Applied(s: AdapterState, side: Side, turn: Turn): AdapterState {
    var s1 := s.With(side, turn.peer);
    if turn.crashed then s1.(crashed := true)
    else s1.With(side.Other(), Listen(s.Peer(side.Other()), turn.out, turn.peer))
  }

  /** Promise continuations run before time passes. */
  predicate NoneResuming(p: PeerState) {
    && (forall r | r in p.agent.receives :: p.agent.receives[r].Awaiting?)
    && (forall c | c in p.agent.closes :: !p.agent.closes[c].settled)
  }

  predicate CanMove(s: AdapterState, m: Move) {
    && !s.crashed
    && match m
       case Tick(_) => NoneResuming(s.a) && NoneResuming(s.b)
       case On(side, ev) => CanHappen(s.Peer(side), ev, s.now)
  }

  function Step(s: AdapterState, m: Move, cfg: AdapterConfig): AdapterState
    requires CanMove(s, m)
  {
    match m
    case Tick(ms) => s.(now := s.now + ms)
    case On(side, ev) =>
      Applied(s, side, TakeTurn(s.Peer(side), ev, s.now, cfg.Of(side)))
  }

  // ---- Runs and what they may assume of the environment -----------------------------------------------------------

  /** No timer is overdue: time never passes the moment a pending timer is due. */
  ghost predicate PromptUntil(p: PeerState, now: nat) {
    && (forall t :: t in p.auth.timers ==> now <= p.auth.timers[t].due)
    && (forall t :: t in p.agent.watch.pings ==> now <= p.agent.watch.pings[t])
    && (forall r :: r in p.agent.receives && p.agent.receives[r].Awaiting? ==> now <= p.agent.receives[r].due)
    && (forall c :: c in p.agent.closes && !p.agent.closes[c].settled ==> now <= p.agent.closes[c].due)
    && (forall t :: t in p.own.retries ==> now <= p.own.retries[t].due)
    && (forall t :: t in p.own.jwsLoops ==> now <= p.own.jwsLoops[t])
    && (forall a :: a in p.http.timers ==> now <= p.http.timers[a])
  }

  /** Assumptions about the environment of one peer that a theorem may need; each is a condition on single moves. */
  datatype Habits = Habits(
    prompt: bool,       // the peer's timers fire in the millisecond they are due
    noLatePing: bool,   // the peer gets no ping between close() and the next open()
    longTokens: bool,   // every token lives for at least 31 s
    spacedCerts: bool)  // certificates that the hub announces come while no agent awaits its destruction

  datatype Environment = Environment(a: Habits, b: Habits) {
    function Of(side: Side): Habits {
      if side == A then a else b
    }
  }

  ghost predicate AllowsTurn(habits: Habits, p: PeerState, ev: Event, now: nat) {
    && (habits.noLatePing && ev.SocketPing? ==> p.agent.watch.armed)
    && (habits.longTokens && ev.TokenFetch? ==> Auth.LongLived(ev.response))
    && (habits.spacedCerts && ev.SocketMessage? && Handle(ev.msg).OnCert? ==>
          Http.SpacedAt(p.http, StateEvent(None, Some(Handle(ev.msg).certs))))
  }

  ghost predicate Allows(env: Environment, s: AdapterState, m: Move) {
    match m
    case Tick(ms) =>
      (env.a.prompt ==> PromptUntil(s.a, s.now + ms)) && (env.b.prompt ==> PromptUntil(s.b, s.now + ms))
    case On(side, ev) => AllowsTurn(env.Of(side), s.Peer(side), ev, s.now)
  }

  ghost predicate Legal(s: AdapterState, run: seq<Move>, cfg: AdapterConfig, env: Environment)
    decreases run
  {
    run == [] ||
    (CanMove(s, run[0]) && Allows(env, s, run[0]) && Legal(Step(s, run[0], cfg), run[1..], cfg, env))
  }

  /** The state after a run. */
  ghost function After(s: AdapterState, run: seq<Move>, cfg: AdapterConfig, env: Environment): AdapterState
    requires Legal(s, run, cfg, env)
    decreases run
  {
    if run == [] then s else After(Step(s, run[0], cfg), run[1..], cfg, env)
  }

  /** A move changes a peer by its own turn, or by what the listeners make of the other peer's turn. */
  lemma StepPeer(s: AdapterState, m: Move, cfg: AdapterConfig, x: Side)
    requires CanMove(s, m)
    ensures Step(s, m, cfg).Peer(x) ==
            if m.Tick? then s.Peer(x)
            else
              var turn := TakeTurn(s.Peer(m.side), m.ev, s.now, cfg.Of(m.side));
              if m.side == x then turn.peer
              else if turn.crashed then s.Peer(x)
              else Listen(s.Peer(x), turn.out, turn.peer)
    ensures Step(s, m, cfg).now == s.now + if m.Tick? then m.ms else 0
  {
  }

  /** The other peer's turn can only write to this peer's socket and update its ping service. */
  lemma StepLocal(s: AdapterState, m: Move, cfg: AdapterConfig, x: Side)
    requires CanMove(s, m)
    ensures Step(s, m, cfg).now == s.now + if m.Tick? then m.ms else 0
    ensures m.On? && m.side == x ==> Step(s, m, cfg).Peer(x) == TakeTurn(s.Peer(x), m.ev, s.now, cfg.Of(x)).peer
    ensures !(m.On? && m.side == x) ==>
              var p, p' := s.Peer(x), Step(s, m, cfg).Peer(x);
              p'.own == p.own && p'.auth == p.auth && p'.http == p.http && p'.agent == p.agent.(sent := p'.agent.sent)
  {
    StepPeer(s, m, cfg, x);
  }

  lemma StepParts(s: AdapterState, side: Side, ev: Event, cfg: AdapterConfig)
    requires CanMove(s, On(side, ev))
    ensures var turn := TakeTurn(s.Peer(side), ev, s.now, cfg.Of(side));
            var other := if turn.crashed then s.Peer(side.Other())
                           else Listen(s.Peer(side.Other()), turn.out, turn.peer);
            Step(s, On(side, ev), cfg)
            == if side == A then AdapterState(s.now, turn.peer, other, turn.crashed)
               else AdapterState(s.now, other, turn.peer, turn.crashed)
  {
  }

  // ---- The class --------------------------------------------------------------------------------------------------

  class InterSchemeProxyAdapter {
    const peerA: PeerServer
    const peerB: PeerServer
    var crashed: bool

    ghost predicate Valid() {
      peerA.Valid() && peerB.Valid() && peerA.Repr() !! peerB.Repr() && this !in peerA.Repr() && this !in peerB.Repr()
    }

    ghost function Repr(): set<object> {
      {this} + peerA.Repr() + peerB.Repr()
    }

    ghost function Config(): AdapterConfig {
      AdapterConfig(peerA.cfg, peerB.cfg)
    }

    ghost function Abs(now: nat): AdapterState reads Repr() {
      AdapterState(now, peerA.Abs(), peerB.Abs(), crashed)
    }

    constructor (cfg: AdapterConfig)
      ensures Valid() && fresh(Repr()) && Config() == cfg && Abs(0) == INITIAL_ADAPTER
    {
      peerA := new PeerServer(cfg.a);
      peerB := new PeerServer(cfg.b);
      crashed := false;
    }

    /** The listeners that the constructor adds, run on what a turn of one peer emitted. */
    method OnEmit(out: Out, emitter: PeerServer, other: PeerServer)
      requires emitter.Repr() !! other.Repr()
      modifies other.Repr()
      ensures other.Abs() == Listen(old(other.Abs()), out, old(emitter.Abs()))
      ensures emitter.Abs() == old(emitter.Abs())
    {
      match out {
        case Nothing =>
        case PingAuthDetails(details) => other.UpdatePingAuthDetails(details);
        case PeerJws(peerJws) =>
          if emitter.jwsListeners {
            var _ := other.PropagatePeerJWSEvent(peerJws);
          }
      }
    }

    /** A turn of one peer, and of the listeners if it did not end the process. */
    method TurnOf(peer: PeerServer, other: PeerServer, ev: Event, now: nat) returns (fatal: bool)
      requires peer.Valid() && peer.Repr() !! other.Repr() && CanHappen(peer.Abs(), ev, now)
      modifies peer.Repr(), other.Repr()
      ensures var turn := TakeTurn(old(peer.Abs()), ev, now, peer.cfg);
              && fatal == turn.crashed
              && peer.Abs() == turn.peer
              && other.Abs() == if fatal then old(other.Abs()) else Listen(old(other.Abs()), turn.out, turn.peer)
    {
      var out;
      out, fatal := peer.Take(ev, now);
      if !fatal {
        OnEmit(out, peer, other);
      }
    }

    /** One peer takes a turn of the event loop. */
    method Take(side: Side, ev: Event, now: nat)
      requires Valid() && !crashed && CanHappen(Abs(now).Peer(side), ev, now)
      modifies Repr()
      ensures Abs(now) == Step(old(Abs(now)), On(side, ev), Config())
    {
      if side == A {
        TakeA(ev, now);
      } else {
        TakeB(ev, now);
      }
    }

    method TakeA(ev: Event, now: nat)
      requires Valid() && !crashed && CanHappen(peerA.Abs(), ev, now)
      modifies Repr()
      ensures Abs(now) == Step(old(Abs(now)), On(A, ev), Config())
    {
      StepParts(Abs(now), A, ev, Config());
      crashed := TurnOf(peerA, peerB, ev, now);
    }

    method TakeB(ev: Event, now: nat)
      requires Valid() && !crashed && CanHappen(peerB.Abs(), ev, now)
      modifies Repr()
      ensures Abs(now) == Step(old(Abs(now)), On(B, ev), Config())
    {
      StepParts(Abs(now), B, ev, Config());
      crashed := TurnOf(peerB, peerA, ev, now);
    }

    /** `start()`: both peers start in the same turn. */
    method Start(now: nat)
      requires Valid() && !crashed && !peerA.started && !peerB.started
      modifies Repr()
      ensures Abs(now) == old(Abs(now)).(a := StartBegun(old(peerA.Abs()), now), b := StartBegun(old(peerB.Abs()), now))
    {
      Take(A, Event.Start, now);
      Take(B, Event.Start, now);
    }

    /** `stop()`: both peers begin to stop in the same turn. */
    method Stop(now: nat)
      requires Valid() && !crashed
      requires peerA.started && peerA.phase.Running? && peerB.started && peerB.phase.Running?
      modifies Repr()
      ensures Abs(now) == old(Abs(now)).(a := StopBegun(old(peerA.Abs()), now), b := StopBegun(old(peerB.Abs()), now))
    {
      Take(A, Event.Stop, now);
      Take(B, Event.Stop, now);
    }
  }
}
