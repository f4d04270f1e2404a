/** A peer whose sockets are all closed reconnects, whatever events come. */
module Reconnecting {
  import opened Prelude
  import opened Peers
  import opened Adapter
  import opened RetryMachine
  import opened Runs
  import opened Watchdog
  import Auth
  import Control
  import Invariants
  import Recovery

  // ---- When no socket is left -------------------------------------------------------------------------------------

  ghost predicate AllClosed(s: Control.AgentState) {
    forall k :: 0 <= k < |s.sockets| ==> s.sockets[k].ready.Closed?
  }

  /** The watchdog is armed in every state of the run. */
  ghost predicate StaysArmed(s: AdapterState, run: seq<Move>, cfg: AdapterConfig, env: Environment, x: Side)
    requires Legal(s, run, cfg, env)
    decreases run
  {
    s.Peer(x).agent.watch.armed && (run != [] ==> StaysArmed(Step(s, run[0], cfg), run[1..], cfg, env, x))
  }

  ghost predicate ClosedOrOpening(s: Control.AgentState, s': Control.AgentState, opens: bool) {
    if opens then |s.sockets| < |s'.sockets| else AllClosed(s') && |s'.sockets| == |s.sockets|
  }

  lemma TokenFetchedWhileClosed(p: PeerState, f: nat, r: Auth.Response, now: nat, cfg: Config)
    requires f in p.auth.fetches && AllClosed(p.agent)
    ensures ClosedOrOpening(p.agent, TokenFetched(p, f, r, now, cfg).peer.agent, Opens(p, TokenFetch(f, r)))
  {
  }

  lemma ReceiveResumedWhileClosed(p: PeerState, r: nat, now: nat, cfg: Config)
    requires r in p.agent.receives && !p.agent.receives[r].Awaiting? && AllClosed(p.agent)
    ensures ClosedOrOpening(p.agent, ReceiveResumed(p, r, now, cfg).peer.agent, false)
  {
  }

  /** While every socket is closed, nothing but `open()` re-arms the watchdog, and `open()` makes a new socket. */
  lemma ClosedTurn(p: PeerState, ev: Event, now: nat, cfg: Config)
    requires CanHappen(p, ev, now) && AllClosed(p.agent)
    ensures !Rearms(p, ev)
    ensures ClosedOrOpening(p.agent, TakeTurn(p, ev, now, cfg).peer.agent, Opens(p, ev))
  {
    match ev
    case TokenFetch(f, r) => TokenFetchedWhileClosed(p, f, r, now, cfg);
    case ResumeReceive(r) => ReceiveResumedWhileClosed(p, r, now, cfg);
    case _ =>
  }

  lemma StepWhileClosed(s: AdapterState, m: Move, cfg: AdapterConfig, x: Side)
    requires CanMove(s, m) && AllClosed(s.Peer(x).agent)
    ensures m.On? && m.side == x ==> !Rearms(s.Peer(x), m.ev)
    ensures ClosedOrOpening(s.Peer(x).agent, Step(s, m, cfg).Peer(x).agent,
              m.On? && m.side == x && Opens(s.Peer(x), m.ev))
  {
    StepLocal(s, m, cfg, x);
    if m.On? && m.side == x {
      ClosedTurn(s.Peer(x), m.ev, s.now, cfg.Of(x));
    }
  }

  lemma {:induction false} RunWhileClosed(
    s: AdapterState, run: seq<Move>, cfg: AdapterConfig, env: Environment, x: Side, deadline: nat)
    requires env.Of(x).prompt && AdapterInv(s, cfg) && Legal(s, run, cfg, env) && StaysArmed(s, run, cfg, env, x)
    requires AllClosed(s.Peer(x).agent) && ActsBy(s.Peer(x), deadline, s.now, cfg.Of(x))
    ensures OpensIn(s, run, cfg, env, x) || After(s, run, cfg, env).now <= deadline
    decreases run
  {
    if run != [] {
      StepWhileClosed(s, run[0], cfg, x);
      if !(run[0].On? && run[0].side == x && Opens(s.Peer(x), run[0].ev)) {
        StepKeepsActsBy(s, run[0], cfg, env, x, deadline);
        StepKeepsInv(s, run[0], cfg);
        RunWhileClosed(Step(s, run[0], cfg), run[1..], cfg, env, x, deadline);
      }
    }
  }

  lemma {:induction false} OpeningAddsSocket(
    s: AdapterState, run: seq<Move>, cfg: AdapterConfig, env: Environment, x: Side)
    requires Legal(s, run, cfg, env) && OpensIn(s, run, cfg, env, x) && AllClosed(s.Peer(x).agent)
    ensures |s.Peer(x).agent.sockets| < |After(s, run, cfg, env).Peer(x).agent.sockets|
    decreases run
  {
    var next := Step(s, run[0], cfg);
    StepWhileClosed(s, run[0], cfg, x);
    if run[0].On? && run[0].side == x && Opens(s.Peer(x), run[0].ev) {
      RunKeepsSockets(next, run[1..], cfg, env, x);
    } else {
      OpeningAddsSocket(next, run[1..], cfg, env, x);
    }
  }

  /** `open()` is called in the run, and makes a new socket. */
  ghost predicate Reopens(s: AdapterState, run: seq<Move>, cfg: AdapterConfig, env: Environment, x: Side)
    requires Legal(s, run, cfg, env)
  {
    && OpensIn(s, run, cfg, env, x)
    && |s.Peer(x).agent.sockets| < |After(s, run, cfg, env).Peer(x).agent.sockets|
  }

  lemma ClosedReopens(s: AdapterState, run: seq<Move>, cfg: AdapterConfig, env: Environment, x: Side)
    requires env.Of(x).prompt && AdapterInv(s, cfg) && Legal(s, run, cfg, env) && StaysArmed(s, run, cfg, env, x)
    requires AllClosed(s.Peer(x).agent) && After(s, run, cfg, env).now > s.now + Delay(30_000 + cfg.Of(x).timeout)
    ensures Reopens(s, run, cfg, env, x)
  {
    RunWhileClosed(s, run, cfg, env, x, s.now + Delay(30_000 + cfg.Of(x).timeout));
    OpeningAddsSocket(s, run, cfg, env, x);
  }

  /**
   * Once every socket of an armed agent is closed, the watchdog recovers: with prompt timers, any continuation longer
   * than one window in which `close()` is not called calls `open()`, which makes a new socket, whatever events come.
   */
  lemma ClosedSocketsReopen(
    before: seq<Move>, after: seq<Move>, cfg: AdapterConfig, history: Environment, env: Environment, x: Side)
    requires Legal(INITIAL_ADAPTER, before, cfg, history)
    requires Legal(After(INITIAL_ADAPTER, before, cfg, history), after, cfg, env)
    ensures var s := After(INITIAL_ADAPTER, before, cfg, history);
            var later := After(s, after, cfg, env);
            env.Of(x).prompt && AllClosed(s.Peer(x).agent) && StaysArmed(s, after, cfg, env, x)
            && later.now > s.now + Delay(30_000 + cfg.Of(x).timeout) ==>
              Reopens(s, after, cfg, env, x)
  {
    InitiallyInv(cfg);
    RunKeepsInv(INITIAL_ADAPTER, before, cfg, history);
    var s := After(INITIAL_ADAPTER, before, cfg, history);
    var later := After(s, after, cfg, env);
    if env.Of(x).prompt && AllClosed(s.Peer(x).agent) && StaysArmed(s, after, cfg, env, x) {
      if later.now > s.now + Delay(30_000 + cfg.Of(x).timeout) {
        ClosedReopens(s, after, cfg, env, x);
      }
    }
  }

  // ---- A ready peer stays armed -----------------------------------------------------------------------------------

  /** From `open()` on, an attempt keeps the watchdog armed. */
  predicate ArmedAt(s: Control.AgentState, st: Stage) {
    st.Opening? || st.Loading? || st.Ready? ==> s.watch.armed
  }

  lemma TokenFetchedArms(p: PeerState, st: Stage, f: nat, r: Auth.Response, now: nat, cfg: Config)
    requires f in p.auth.fetches && InStage(p, st) && ArmedAt(p.agent, st)
    ensures ArmedAt(TokenFetched(p, f, r, now, cfg).peer.agent, NextStage(p, st, TokenFetch(f, r)))
  {
  }

  lemma SocketOpenedArms(p: PeerState, st: Stage, k: nat, now: nat, cfg: Config)
    requires k < |p.agent.sockets| && InStage(p, st) && ArmedAt(p.agent, st)
    ensures ArmedAt(SocketOpened(p, k, now, cfg).peer.agent, NextStage(p, st, SocketOpen(k)))
  {
  }

  lemma ReceiveResumedArms(p: PeerState, st: Stage, r: nat, now: nat, cfg: Config)
    requires r in p.agent.receives && !p.agent.receives[r].Awaiting? && InStage(p, st) && ArmedAt(p.agent, st)
    ensures ArmedAt(ReceiveResumed(p, r, now, cfg).peer.agent, NextStage(p, st, ResumeReceive(r)))
  {
  }

  lemma TurnKeepsArmedAt(p: PeerState, st: Stage, ev: Event, now: nat, cfg: Config)
    requires CanHappen(p, ev, now) && InStage(p, st) && ArmedAt(p.agent, st) && !ev.Stop?
    ensures ArmedAt(TakeTurn(p, ev, now, cfg).peer.agent, NextStage(p, st, ev))
  {
    match ev
    case TokenFetch(f, r) => TokenFetchedArms(p, st, f, r, now, cfg);
    case SocketOpen(k) => SocketOpenedArms(p, st, k, now, cfg);
    case ResumeReceive(r) => ReceiveResumedArms(p, st, r, now, cfg);
    case _ =>
  }

  ghost predicate ArmedInv(p: PeerState) {
    p.own.phase.Running? ==> exists st :: InStage(p, st) && ArmedAt(p.agent, st)
  }

  lemma StepKeepsArmedInv(s: AdapterState, m: Move, cfg: AdapterConfig, x: Side)
    requires CanMove(s, m) && AdapterInv(s, cfg) && ArmedInv(s.Peer(x))
    ensures ArmedInv(Step(s, m, cfg).Peer(x))
  {
    StepLocal(s, m, cfg, x);
    var p, p' := s.Peer(x), Step(s, m, cfg).Peer(x);
    if p'.own.phase.Running? {
      if m.On? && m.side == x {
        Invariants.PhaseTurn(p, m.ev, s.now, cfg.Of(x));
      }
      var st :| InStage(p, st) && ArmedAt(p.agent, st);
      Recovery.StepRefines(s, m, cfg, x, st);
      if m.On? && m.side == x {
        TurnKeepsArmedAt(p, st, m.ev, s.now, cfg.Of(x));
      }
      assert ArmedAt(p'.agent, Recovery.StageAfter(s, m, x, st));
    }
  }

  lemma {:induction false} RunKeepsArmedInv(
    s: AdapterState, run: seq<Move>, cfg: AdapterConfig, env: Environment, x: Side)
    requires AdapterInv(s, cfg) && Legal(s, run, cfg, env) && ArmedInv(s.Peer(x))
    ensures ArmedInv(After(s, run, cfg, env).Peer(x))
    decreases run
  {
    if run != [] {
      StepKeepsArmedInv(s, run[0], cfg, x);
      StepKeepsInv(s, run[0], cfg);
      RunKeepsArmedInv(Step(s, run[0], cfg), run[1..], cfg, env, x);
    }
  }

  lemma ReadyIsArmed(p: PeerState)
    requires ArmedInv(p) && p.own.phase.Running? && p.own.isReady
    ensures p.agent.watch.armed
  {
  }

  lemma StepKeepsReady(s: AdapterState, m: Move, cfg: AdapterConfig, x: Side)
    requires CanMove(s, m) && AdapterInv(s, cfg) && m != On(x, Stop)
    requires s.Peer(x).own.phase.Running? && s.Peer(x).own.isReady
    ensures Step(s, m, cfg).Peer(x).own.phase.Running? && Step(s, m, cfg).Peer(x).own.isReady
  {
    var st :| InStage(s.Peer(x), st);
    Recovery.StepRefines(s, m, cfg, x, st);
    Recovery.StepKeepsRunning(s, m, cfg, x);
  }

  lemma {:induction false} ReadyStaysArmed(
    s: AdapterState, run: seq<Move>, cfg: AdapterConfig, env: Environment, x: Side)
    requires AdapterInv(s, cfg) && Legal(s, run, cfg, env) && ArmedInv(s.Peer(x)) && Recovery.NoStop(run, x)
    requires s.Peer(x).own.phase.Running? && s.Peer(x).own.isReady
    ensures StaysArmed(s, run, cfg, env, x)
    decreases run
  {
    ReadyIsArmed(s.Peer(x));
    if run != [] {
      StepKeepsReady(s, run[0], cfg, x);
      StepKeepsArmedInv(s, run[0], cfg, x);
      StepKeepsInv(s, run[0], cfg);
      assert Recovery.NoStop(run[1..], x);
      ReadyStaysArmed(Step(s, run[0], cfg), run[1..], cfg, env, x);
    }
  }

  lemma InitiallyArmedInv()
    ensures ArmedInv(INITIAL_PEER)
  {
    assert InStage(INITIAL_PEER, Idle);
  }

  /**
   * A ready peer all of whose sockets are closed reconnects: with prompt timers, any continuation without `stop` that
   * is longer than one window calls `open()`, which makes a new socket, whatever happened before and whatever events
   * come.
   */
  lemma ReadyPeerReconnects(
    before: seq<Move>, after: seq<Move>, cfg: AdapterConfig, history: Environment, env: Environment, x: Side)
    requires Legal(INITIAL_ADAPTER, before, cfg, history)
    requires Legal(After(INITIAL_ADAPTER, before, cfg, history), after, cfg, env)
    ensures var s := After(INITIAL_ADAPTER, before, cfg, history);
            var p, later := s.Peer(x), After(s, after, cfg, env);
            p.own.phase.Running? && p.own.isReady && AllClosed(p.agent) && Recovery.NoStop(after, x)
            && env.Of(x).prompt && later.now > s.now + Delay(30_000 + cfg.Of(x).timeout) ==>
              Reopens(s, after, cfg, env, x)
  {
    InitiallyInv(cfg);
    InitiallyArmedInv();
    RunKeepsInv(INITIAL_ADAPTER, before, cfg, history);
    RunKeepsArmedInv(INITIAL_ADAPTER, before, cfg, history, x);
    var s := After(INITIAL_ADAPTER, before, cfg, history);
    var p, later := s.Peer(x), After(s, after, cfg, env);
    if p.own.phase.Running? && p.own.isReady && AllClosed(p.agent) && Recovery.NoStop(after, x) {
      ReadyStaysArmed(s, after, cfg, env, x);
      if env.Of(x).prompt && later.now > s.now + Delay(30_000 + cfg.Of(x).timeout) {
        ClosedReopens(s, after, cfg, env, x);
      }
    }
  }
}
