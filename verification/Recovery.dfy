/**
 * The start procedure of a peer over whole runs: which stages follow which, where it hangs, and when it tries again.
 */
module Recovery {
  import opened Prelude
  import opened Codec
  import opened Protocol
  import opened Peers
  import opened Adapter
  import opened Invariants
  import opened RetryMachine
  import opened Runs
  import Auth
  import Http
  import Control

  // ---- The simple machine -----------------------------------------------------------------------------------------

  lemma NextMayFollow(p: PeerState, st: Stage, ev: Event, now: nat)
    requires InStage(p, st) && CanHappen(p, ev, now)
    ensures MayFollow(st, NextStage(p, st, ev))
  {
  }

  /** A peer that is not stopped is in exactly one stage, after every run. */
  lemma AlwaysInOneStage(run: seq<Move>, cfg: AdapterConfig, env: Environment, x: Side)
    requires Legal(INITIAL_ADAPTER, run, cfg, env)
    ensures var p := After(INITIAL_ADAPTER, run, cfg, env).Peer(x);
            p.own.phase.Running? ==>
              && (exists st :: InStage(p, st))
              && (forall st, su :: InStage(p, st) && InStage(p, su) ==> st == su)
  {
    InitiallyInv(cfg);
    RunKeepsInv(INITIAL_ADAPTER, run, cfg, env);
    var p := After(INITIAL_ADAPTER, run, cfg, env).Peer(x);
    forall st, su | InStage(p, st) && InStage(p, su) ensures st == su {
      OneStage(p, st, su);
    }
  }

  lemma ListenKeepsStage(p: PeerState, out: Out, emitter: PeerState, st: Stage)
    requires InStage(p, st)
    ensures InStage(Listen(p, out, emitter), st)
  {
  }

  function StageAfter(s: AdapterState, m: Move, x: Side, st: Stage): Stage {
    if m.On? && m.side == x && (m.ev.SocketOpen? ==> m.ev.socket < |s.Peer(x).agent.sockets|)
    then NextStage(s.Peer(x), st, m.ev) else st
  }

  /** Every move takes a peer that is not being stopped along the simple machine. */
  lemma StepRefines(s: AdapterState, m: Move, cfg: AdapterConfig, x: Side, st: Stage)
    requires CanMove(s, m) && AdapterInv(s, cfg) && InStage(s.Peer(x), st)
    requires m.On? && m.side == x ==> Counts(s.Peer(x), st, m.ev)
    ensures InStage(Step(s, m, cfg).Peer(x), StageAfter(s, m, x, st))
    ensures MayFollow(st, StageAfter(s, m, x, st))
  {
    StepPeer(s, m, cfg, x);
    if m.On? {
      var turn := TakeTurn(s.Peer(m.side), m.ev, s.now, cfg.Of(m.side));
      if m.side == x {
        StageTurn(s.Peer(x), st, m.ev, s.now, cfg.Of(x));
        NextMayFollow(s.Peer(x), st, m.ev, s.now);
      } else {
        ListenKeepsStage(s.Peer(x), turn.out, turn.peer, st);
      }
    }
  }

  predicate NoStop(run: seq<Move>, x: Side) {
    forall i | 0 <= i < |run| :: run[i] != On(x, Stop)
  }

  lemma StepKeepsRunning(s: AdapterState, m: Move, cfg: AdapterConfig, x: Side)
    requires CanMove(s, m) && AdapterInv(s, cfg) && s.Peer(x).own.phase.Running? && m != On(x, Stop)
    ensures Step(s, m, cfg).Peer(x).own.phase.Running?
  {
    StepLocal(s, m, cfg, x);
    if m.On? && m.side == x {
      PhaseTurn(s.Peer(x), m.ev, s.now, cfg.Of(x));
    }
  }

  lemma {:induction false} RunKeepsReady(s: AdapterState, run: seq<Move>, cfg: AdapterConfig, env: Environment, x: Side)
    requires AdapterInv(s, cfg) && Legal(s, run, cfg, env) && NoStop(run, x)
    requires s.Peer(x).own.phase.Running? && s.Peer(x).own.isReady
    ensures After(s, run, cfg, env).Peer(x).own.isReady
    decreases run
  {
    if run != [] {
      var st :| InStage(s.Peer(x), st);
      StepRefines(s, run[0], cfg, x, st);
      StepKeepsInv(s, run[0], cfg);
      StepKeepsRunning(s, run[0], cfg, x);
      RunKeepsReady(Step(s, run[0], cfg), run[1..], cfg, env, x);
    }
  }

  /** Once ready, a peer stays ready until it is stopped, whatever its socket, its watchdog and its hub do. */
  lemma ReadyIsAbsorbing(before: seq<Move>, after: seq<Move>, cfg: AdapterConfig, env: Environment, x: Side)
    requires Legal(INITIAL_ADAPTER, before, cfg, env)
    requires Legal(After(INITIAL_ADAPTER, before, cfg, env), after, cfg, env)
    ensures var s := After(INITIAL_ADAPTER, before, cfg, env);
            s.Peer(x).own.phase.Running? && s.Peer(x).own.isReady && NoStop(after, x) ==>
              After(s, after, cfg, env).Peer(x).own.isReady
  {
    InitiallyInv(cfg);
    RunKeepsInv(INITIAL_ADAPTER, before, cfg, env);
    var s := After(INITIAL_ADAPTER, before, cfg, env);
    if s.Peer(x).own.phase.Running? && s.Peer(x).own.isReady && NoStop(after, x) {
      RunKeepsReady(s, after, cfg, env, x);
    }
  }

  /**
   * Exactly which turns change readiness: an attempt that has loaded its certificates becomes ready; a `close()` that
   * resumes and the end of `stop` make the peer not ready.
   */
  lemma ReadyExactly(p: PeerState, ev: Event, now: nat, cfg: Config)
    requires CanHappen(p, ev, now)
    ensures TakeTurn(p, ev, now, cfg).peer.own.isReady ==
            match ev
            case ResumeClose(_) => false
            case ServerStopped => false
            case ResumeReceive(r) =>
              || p.own.isReady
              || (p.agent.receives[r].caller.Starter? && p.agent.receives[r].Received?
                  && IsCertsPayload(p.agent.receives[r].msg))
            case _ => p.own.isReady
  {
  }

  // ---- A start attempt whose own socket fails hangs for ever ------------------------------------------------------

  /** The attempt awaits the `open` event of a socket that failed before it opened. */
  ghost predicate Hung(p: PeerState, k: nat) {
    && InStage(p, Opening(k))
    && (p.agent.sockets[k].ready.Closing? || p.agent.sockets[k].ready.Closed?)
  }

  ghost predicate Dead(s: Control.AgentState, k: nat) {
    k < |s.sockets| && (s.sockets[k].ready.Closing? || s.sockets[k].ready.Closed?)
  }

  lemma TokenFetchedKeepsDead(p: PeerState, f: nat, r: Auth.Response, now: nat, cfg: Config, k: nat)
    requires Dead(p.agent, k) && f in p.auth.fetches
    ensures Dead(TokenFetched(p, f, r, now, cfg).peer.agent, k)
  {
  }

  lemma ReceiveResumedKeepsDead(p: PeerState, r: nat, now: nat, cfg: Config, k: nat)
    requires Dead(p.agent, k) && r in p.agent.receives && !p.agent.receives[r].Awaiting?
    ensures Dead(ReceiveResumed(p, r, now, cfg).peer.agent, k)
  {
  }

  lemma SocketTurnKeepsDead(p: PeerState, i: nat, now: nat, cfg: Config, k: nat)
    requires Dead(p.agent, k) && i < |p.agent.sockets| && i != k
    ensures Dead(SocketOpened(p, i, now, cfg).peer.agent, k)
  {
  }

  lemma DeadTurn(p: PeerState, ev: Event, now: nat, cfg: Config, k: nat)
    requires CanHappen(p, ev, now) && Dead(p.agent, k)
    ensures Dead(TakeTurn(p, ev, now, cfg).peer.agent, k)
  {
    match ev
    case TokenFetch(f, r) => TokenFetchedKeepsDead(p, f, r, now, cfg, k);
    case ResumeReceive(r) => ReceiveResumedKeepsDead(p, r, now, cfg, k);
    case SocketOpen(i) => SocketTurnKeepsDead(p, i, now, cfg, k);
    case _ =>
  }

  /** Every connection that fails before it opens brings this about. */
  lemma FailureHangs(p: PeerState, k: nat, now: nat, cfg: Config)
    requires AuthInv(p.auth) && PromisesInv(p) && InStage(p, Opening(k))
    ensures CanHappen(p, SocketError(k), now) ==> Hung(TakeTurn(p, SocketError(k), now, cfg).peer, k)
    ensures CanHappen(p, SocketClose(k), now) ==> Hung(TakeTurn(p, SocketClose(k), now, cfg).peer, k)
  {
    if CanHappen(p, SocketError(k), now) {
      StageTurn(p, Opening(k), SocketError(k), now, cfg);
    }
    if CanHappen(p, SocketClose(k), now) {
      StageTurn(p, Opening(k), SocketClose(k), now, cfg);
    }
  }

  lemma SentKeepsHung(p: PeerState, p': PeerState, k: nat)
    requires Hung(p, k)
    requires p'.own == p.own && p'.auth == p.auth && p'.agent == p.agent.(sent := p'.agent.sent)
    ensures Hung(p', k)
  {
  }

  lemma TurnKeepsHung(p: PeerState, ev: Event, now: nat, cfg: Config, k: nat)
    requires CanHappen(p, ev, now) && PeerInv(p, now, cfg) && Hung(p, k)
    ensures Hung(TakeTurn(p, ev, now, cfg).peer, k)
  {
    StageTurn(p, Opening(k), ev, now, cfg);
    NextMayFollow(p, Opening(k), ev, now);
    DeadTurn(p, ev, now, cfg, k);
  }

  lemma StepKeepsHung(s: AdapterState, m: Move, cfg: AdapterConfig, x: Side, k: nat)
    requires CanMove(s, m) && AdapterInv(s, cfg) && Hung(s.Peer(x), k)
    ensures Hung(Step(s, m, cfg).Peer(x), k)
  {
    StepLocal(s, m, cfg, x);
    if m.On? && m.side == x {
      TurnKeepsHung(s.Peer(x), m.ev, s.now, cfg.Of(x), k);
    } else {
      SentKeepsHung(s.Peer(x), Step(s, m, cfg).Peer(x), k);
    }
  }

  lemma {:induction false} RunKeepsHung(
    s: AdapterState, run: seq<Move>, cfg: AdapterConfig, env: Environment, x: Side, k: nat)
    requires AdapterInv(s, cfg) && Legal(s, run, cfg, env) && Hung(s.Peer(x), k)
    ensures Hung(After(s, run, cfg, env).Peer(x), k)
    decreases run
  {
    if run != [] {
      StepKeepsHung(s, run[0], cfg, x, k);
      StepKeepsInv(s, run[0], cfg);
      RunKeepsHung(Step(s, run[0], cfg), run[1..], cfg, env, x, k);
    }
  }

  /** A start attempt awaits the `open` event of socket `k`, which failed before it. */
  ghost predicate AwaitsDead(p: PeerState, k: nat) {
    Dead(p.agent, k) && p.agent.sockets[k].opener == Some(Control.Starter)
  }

  ghost predicate Stuck(p: PeerState, k: nat) {
    AwaitsDead(p, k) && !p.own.isReady && p.own.retries == map[]
  }

  lemma HungIsStuck(p: PeerState, k: nat)
    requires Hung(p, k)
    ensures Stuck(p, k)
  {
  }

  lemma AwaitingDeadHangs(p: PeerState, k: nat)
    requires StageInv(p) && p.own.phase.Running? && AwaitsDead(p, k)
    ensures Hung(p, k)
  {
    var st :| InStage(p, st);
    assert st == Opening(k);
  }

  /**
   * A start attempt whose socket fails before it opens never ends: in every later state, whatever the watchdog reopens
   * and even across `stop`, the attempt still awaits the same dead socket, the peer is not ready and no retry is
   * scheduled.
   */
  lemma FailedConnectHangs(before: seq<Move>, after: seq<Move>, cfg: AdapterConfig, env: Environment, x: Side, k: nat)
    requires Legal(INITIAL_ADAPTER, before, cfg, env)
    requires Legal(After(INITIAL_ADAPTER, before, cfg, env), after, cfg, env)
    ensures var s := After(INITIAL_ADAPTER, before, cfg, env);
            var later := After(s, after, cfg, env).Peer(x);
            s.Peer(x).own.phase.Running? && AwaitsDead(s.Peer(x), k) ==>
              Stuck(later, k)
  {
    InitiallyInv(cfg);
    RunKeepsInv(INITIAL_ADAPTER, before, cfg, env);
    var s := After(INITIAL_ADAPTER, before, cfg, env);
    if s.Peer(x).own.phase.Running? && AwaitsDead(s.Peer(x), k) {
      AwaitingDeadHangs(s.Peer(x), k);
      RunKeepsHung(s, after, cfg, env, x, k);
      HungIsStuck(After(s, after, cfg, env).Peer(x), k);
    }
  }

  // ---- and one whose socket still connects can end ----------------------------------------------------------------

  /** A socket whose `open()` is still awaited has not opened. */
  ghost predicate AwaitedNotOpen(s: Control.AgentState) {
    forall k :: 0 <= k < |s.sockets| && s.sockets[k].opener.Some? ==> !s.sockets[k].ready.Open?
  }

  lemma TokenFetchedAwaits(p: PeerState, f: nat, r: Auth.Response, now: nat, cfg: Config)
    requires f in p.auth.fetches && AwaitedNotOpen(p.agent)
    ensures AwaitedNotOpen(TokenFetched(p, f, r, now, cfg).peer.agent)
  {
  }

  lemma SocketOpenedAwaits(p: PeerState, k: nat, now: nat, cfg: Config)
    requires k < |p.agent.sockets| && AwaitedNotOpen(p.agent)
    ensures AwaitedNotOpen(SocketOpened(p, k, now, cfg).peer.agent)
  {
  }

  lemma ReceiveResumedAwaits(p: PeerState, r: nat, now: nat, cfg: Config)
    requires r in p.agent.receives && !p.agent.receives[r].Awaiting? && AwaitedNotOpen(p.agent)
    ensures AwaitedNotOpen(ReceiveResumed(p, r, now, cfg).peer.agent)
  {
  }

  lemma TurnAwaits(p: PeerState, ev: Event, now: nat, cfg: Config)
    requires CanHappen(p, ev, now) && AwaitedNotOpen(p.agent)
    ensures AwaitedNotOpen(TakeTurn(p, ev, now, cfg).peer.agent)
  {
    match ev
    case TokenFetch(f, r) => TokenFetchedAwaits(p, f, r, now, cfg);
    case SocketOpen(k) => SocketOpenedAwaits(p, k, now, cfg);
    case ResumeReceive(r) => ReceiveResumedAwaits(p, r, now, cfg);
    case _ =>
  }

  lemma {:induction false} RunAwaits(s: AdapterState, run: seq<Move>, cfg: AdapterConfig, env: Environment, x: Side)
    requires Legal(s, run, cfg, env) && AwaitedNotOpen(s.Peer(x).agent)
    ensures AwaitedNotOpen(After(s, run, cfg, env).Peer(x).agent)
    decreases run
  {
    if run != [] {
      StepLocal(s, run[0], cfg, x);
      if run[0].On? && run[0].side == x {
        TurnAwaits(s.Peer(x), run[0].ev, s.now, cfg.Of(x));
      }
      RunAwaits(Step(s, run[0], cfg), run[1..], cfg, env, x);
    }
  }

  /** A start attempt awaits the `open` event of socket `k`. */
  predicate AwaitsOpen(p: PeerState, k: nat) {
    k < |p.agent.sockets| && p.agent.sockets[k].opener == Some(Control.Starter)
  }

  /** A legal run after which the attempt no longer awaits socket `k`. */
  ghost predicate GoesOnIn(s: AdapterState, run: seq<Move>, cfg: AdapterConfig, env: Environment, x: Side, k: nat) {
    Legal(s, run, cfg, env) && !AwaitsOpen(After(s, run, cfg, env).Peer(x), k)
  }

  lemma ConnectingGoesOn(s: AdapterState, cfg: AdapterConfig, env: Environment, x: Side, k: nat)
    requires !s.crashed && AwaitsOpen(s.Peer(x), k) && s.Peer(x).agent.sockets[k].ready.Connecting?
    ensures GoesOnIn(s, [On(x, SocketOpen(k))], cfg, env, x, k)
  {
    var run := [On(x, SocketOpen(k))];
    assert run[1..] == [];
    StepLocal(s, run[0], cfg, x);
    OpenedGoesOn(s.Peer(x), k, s.now, cfg.Of(x));
    assert After(s, run, cfg, env) == Step(s, run[0], cfg);
  }

  lemma OpenedGoesOn(p: PeerState, k: nat, now: nat, cfg: Config)
    requires AwaitsOpen(p, k)
    ensures !AwaitsOpen(SocketOpened(p, k, now, cfg).peer, k)
  {
  }

  lemma DeadNeverGoesOn(s: AdapterState, after: seq<Move>, cfg: AdapterConfig, env: Environment, x: Side, k: nat)
    requires AdapterInv(s, cfg) && s.Peer(x).own.phase.Running? && AwaitsDead(s.Peer(x), k)
    ensures !GoesOnIn(s, after, cfg, env, x, k)
  {
    if Legal(s, after, cfg, env) {
      AwaitingDeadHangs(s.Peer(x), k);
      RunKeepsHung(s, after, cfg, env, x, k);
      HungIsStuck(After(s, after, cfg, env).Peer(x), k);
    }
  }

  lemma CanGoOn(s: AdapterState, cfg: AdapterConfig, env: Environment, x: Side, k: nat)
    requires AdapterInv(s, cfg) && AwaitedNotOpen(s.Peer(x).agent)
    requires !s.crashed && s.Peer(x).own.phase.Running? && AwaitsOpen(s.Peer(x), k)
    ensures (exists after :: GoesOnIn(s, after, cfg, env, x, k)) <==> !Dead(s.Peer(x).agent, k)
  {
    if Dead(s.Peer(x).agent, k) {
      forall after ensures !GoesOnIn(s, after, cfg, env, x, k) {
        DeadNeverGoesOn(s, after, cfg, env, x, k);
      }
    } else {
      ConnectingGoesOn(s, cfg, env, x, k);
    }
  }

  /**
   * After every run: a start attempt that awaits its socket can still go on, in some continuation, exactly when that
   * socket has not failed.
   */
  lemma AttemptCanGoOn(run: seq<Move>, cfg: AdapterConfig, history: Environment, env: Environment, x: Side, k: nat)
    requires Legal(INITIAL_ADAPTER, run, cfg, history)
    ensures var s := After(INITIAL_ADAPTER, run, cfg, history);
            !s.crashed && s.Peer(x).own.phase.Running? && AwaitsOpen(s.Peer(x), k) ==>
              ((exists after :: GoesOnIn(s, after, cfg, env, x, k)) <==> !Dead(s.Peer(x).agent, k))
  {
    InitiallyInv(cfg);
    RunKeepsInv(INITIAL_ADAPTER, run, cfg, history);
    RunAwaits(INITIAL_ADAPTER, run, cfg, history, x);
    var s := After(INITIAL_ADAPTER, run, cfg, history);
    if !s.crashed && s.Peer(x).own.phase.Running? && AwaitsOpen(s.Peer(x), k) {
      CanGoOn(s, cfg, env, x, k);
    }
  }

  // ---- Retries find the socket gone -------------------------------------------------------------------------------

  /** The stages in which nothing may reopen the control agent. */
  predicate Between(st: Stage) {
    st.Idle? || st.Fetching? || st.Cleaning? || st.Waiting?
  }

  /**
   * Between attempts no watchdog is pending and no closing socket can re-arm it; after the clean-up no socket is
   * current.
   */
  ghost predicate Calm(s: Control.AgentState, st: Stage) {
    && (Between(st) ==> s.watch.pings == map[] && !s.watch.armed && (s.shouldReconnect ==> s.sockets == []))
    && (Between(st) && !st.Cleaning? ==> s.ws.None?)
  }

  lemma ClosingIsCalm(s: Control.AgentState, dns: bool, now: nat, timeout: int, c: nat)
    requires Control.WatchInv(s.watch, timeout, now)
    ensures Calm(Control.ClosingFor(s, Control.ForRetry(dns, now), now), Cleaning(c))
  {
    Control.ClosingForKeeps(s, Control.ForRetry(dns, now), now, timeout);
  }

  lemma TokenFetchedCalm(p: PeerState, st: Stage, f: nat, r: Auth.Response, now: nat, cfg: Config)
    requires f in p.auth.fetches && InStage(p, st) && Calm(p.agent, st)
    requires Control.WatchInv(p.agent.watch, cfg.timeout, now)
    ensures Calm(TokenFetched(p, f, r, now, cfg).peer.agent, NextStage(p, st, TokenFetch(f, r)))
  {
    if st == Fetching(f) {
      ClosingIsCalm(p.agent, true, now, cfg.timeout, p.agent.next);
      ClosingIsCalm(p.agent, false, now, cfg.timeout, p.agent.next);
    }
  }

  lemma SocketOpenedCalm(p: PeerState, st: Stage, k: nat, now: nat, cfg: Config)
    requires k < |p.agent.sockets| && InStage(p, st) && Calm(p.agent, st)
    requires Control.WatchInv(p.agent.watch, cfg.timeout, now)
    ensures Calm(SocketOpened(p, k, now, cfg).peer.agent, NextStage(p, st, SocketOpen(k)))
  {
    ClosingIsCalm(Control.SocketOpened(p.agent, k), false, now, cfg.timeout, p.agent.next);
  }

  lemma ReceiveResumedCalm(p: PeerState, st: Stage, r: nat, now: nat, cfg: Config)
    requires r in p.agent.receives && !p.agent.receives[r].Awaiting? && InStage(p, st) && Calm(p.agent, st)
    requires Control.WatchInv(p.agent.watch, cfg.timeout, now)
    ensures Calm(ReceiveResumed(p, r, now, cfg).peer.agent, NextStage(p, st, ResumeReceive(r)))
  {
    ClosingIsCalm(Control.ReceiveResumed(p.agent, r), false, now, cfg.timeout, p.agent.next);
  }

  lemma SocketEventsCalm(p: PeerState, st: Stage, ev: Event, now: nat, cfg: Config)
    requires CanHappen(p, ev, now) && InStage(p, st) && Calm(p.agent, st)
    requires ev.SocketPing? || ev.SocketClose? || ev.SocketError? || ev.SocketMessage?
    requires ev.SocketPing? ==> p.agent.watch.armed
    ensures Calm(TakeTurn(p, ev, now, cfg).peer.agent, st)
  {
  }

  lemma OtherTurnsCalm(p: PeerState, st: Stage, ev: Event, now: nat, cfg: Config)
    requires CanHappen(p, ev, now) && InStage(p, st) && Calm(p.agent, st) && !ev.Stop?
    requires !ev.TokenFetch? && !ev.SocketOpen? && !ev.ResumeReceive?
    requires ev.SocketPing? ==> p.agent.watch.armed
    ensures Calm(TakeTurn(p, ev, now, cfg).peer.agent, NextStage(p, st, ev))
  {
    if ev.SocketPing? || ev.SocketClose? || ev.SocketError? || ev.SocketMessage? {
      SocketEventsCalm(p, st, ev, now, cfg);
    }
  }

  /** Given no ping between `close()` and the next `open()`, calm lasts from one attempt to the next. */
  lemma TurnKeepsCalm(p: PeerState, st: Stage, ev: Event, now: nat, cfg: Config)
    requires CanHappen(p, ev, now) && InStage(p, st) && Calm(p.agent, st) && !ev.Stop?
    requires Control.WatchInv(p.agent.watch, cfg.timeout, now)
    requires ev.SocketPing? ==> p.agent.watch.armed
    ensures Calm(TakeTurn(p, ev, now, cfg).peer.agent, NextStage(p, st, ev))
  {
    match ev
    case TokenFetch(f, r) => TokenFetchedCalm(p, st, f, r, now, cfg);
    case SocketOpen(k) => SocketOpenedCalm(p, st, k, now, cfg);
    case ResumeReceive(r) => ReceiveResumedCalm(p, st, r, now, cfg);
    case _ => OtherTurnsCalm(p, st, ev, now, cfg);
  }

  ghost predicate CalmInv(p: PeerState) {
    p.own.phase.Running? ==> exists st :: InStage(p, st) && Calm(p.agent, st)
  }

  lemma StepKeepsCalm(s: AdapterState, m: Move, cfg: AdapterConfig, env: Environment, x: Side)
    requires CanMove(s, m) && Allows(env, s, m) && env.Of(x).noLatePing && AdapterInv(s, cfg) && CalmInv(s.Peer(x))
    ensures CalmInv(Step(s, m, cfg).Peer(x))
  {
    StepLocal(s, m, cfg, x);
    if Step(s, m, cfg).Peer(x).own.phase.Running? {
      if m.On? && m.side == x {
        PhaseTurn(s.Peer(x), m.ev, s.now, cfg.Of(x));
      }
      var st :| InStage(s.Peer(x), st) && Calm(s.Peer(x).agent, st);
      StepRefines(s, m, cfg, x, st);
      if m.On? && m.side == x {
        TurnKeepsCalm(s.Peer(x), st, m.ev, s.now, cfg.Of(x));
      }
      assert Calm(Step(s, m, cfg).Peer(x).agent, StageAfter(s, m, x, st));
    }
  }

  lemma {:induction false} RunKeepsCalm(s: AdapterState, run: seq<Move>, cfg: AdapterConfig, env: Environment, x: Side)
    requires env.Of(x).noLatePing && AdapterInv(s, cfg) && Legal(s, run, cfg, env) && CalmInv(s.Peer(x))
    ensures CalmInv(After(s, run, cfg, env).Peer(x))
    decreases run
  {
    if run != [] {
      StepKeepsCalm(s, run[0], cfg, env, x);
      StepKeepsInv(s, run[0], cfg);
      RunKeepsCalm(Step(s, run[0], cfg), run[1..], cfg, env, x);
    }
  }

  /**
   * Given no ping between `close()` and the next `open()`, no start attempt of a peer that is not stopped is ever
   * rejected because the socket is already open: whenever an attempt's token request is in flight, there is no current
   * socket at all.
   */
  lemma NeverAlreadyOpen(run: seq<Move>, cfg: AdapterConfig, env: Environment, x: Side, f: nat)
    requires env.Of(x).noLatePing && Legal(INITIAL_ADAPTER, run, cfg, env)
    ensures var p := After(INITIAL_ADAPTER, run, cfg, env).Peer(x);
            p.own.phase.Running? && f in p.auth.fetches && p.auth.fetches[f].awaited ==>
              p.agent.ws.None? && !Control.IsOpen(p.agent)
  {
    InitiallyInv(cfg);
    assert InStage(INITIAL_PEER, Idle) && Calm(INITIAL_PEER.agent, Idle);
    RunKeepsCalm(INITIAL_ADAPTER, run, cfg, env, x);
  }

  /**
   * The assumption is needed: after the `close()` of a failed attempt on an open socket, one late ping re-arms the
   * watchdog, whatever its window, which then opens another socket.
   */
  lemma LatePingReopens(s: Control.AgentState, timeout: int, now: nat)
    requires Control.WatchInv(s.watch, timeout, now) && Control.IsOpen(s)
    ensures var closing := Control.ClosingFor(s, Control.ForRetry(false, now), now);
            var pinged := Control.PingReceived(closing, now, timeout);
            var closed := Control.CloseResumed(Control.SocketClosed(pinged, s.ws.value, now, timeout), s.next);
            var t := closed.watch.pingTimeout.value;
            var reopened := Control.PingTimedOut(closed, t, now + Delay(30_000 + timeout), timeout);
            && Talking(closing, s.ws.value)
            && t in closed.watch.pings && closed.watch.pings[t] == now + Delay(30_000 + timeout)
            && !Control.IsOpen(closed)
            && reopened.ws.Some? && Control.IsOpen(Control.SocketOpened(reopened, reopened.ws.value))
  {
    Control.ClosingForKeeps(s, Control.ForRetry(false, now), now, timeout);
  }

  // ---- A start that nothing disturbs ------------------------------------------------------------------------------

  lemma StartedAndFetched(token: string, expiresIn: int, cfg: Config)
    requires token != "" && expiresIn != 0
    ensures var p1 := StartBegun(INITIAL_PEER, 0);
            && 0 in p1.auth.fetches
            && var p2 := TokenFetched(p1, 0, Auth.Body(token, expiresIn, 0), 0, cfg).peer;
            && p2.agent.sockets == [Control.Socket(Control.Connecting, Some(Control.Starter))] && p2.agent.ws == Some(0)
            && p2.agent.receives == map[] && p2.agent.next == 0
            && p2.http == Http.INITIAL_HTTP.(accessToken := token)
  {
  }

  lemma LoadedAndReady(p: PeerState, msg: Value, now: nat, cfg: Config)
    requires p.agent.sockets == [Control.Socket(Control.Connecting, Some(Control.Starter))] && p.agent.ws == Some(0)
    requires p.agent.receives == map[] && p.agent.next == 0
    requires p.http == Http.INITIAL_HTTP.(accessToken := p.http.accessToken)
    requires IsCertsPayload(msg)
    ensures var p3 := SocketOpened(p, 0, now, cfg).peer;
            var p4 := MessageArrived(p3, 0, Some(msg), now).peer;
            && 0 in p4.agent.receives && p4.agent.receives[0] == Control.Received(msg, Control.Starter)
            && var p5 := ReceiveResumed(p4, 0, now, cfg).peer;
            && p5.own.isReady
            && p5.http.created == [ExtractCerts(msg), ExtractCerts(msg)] && p5.http.agent == Some(1)
            && p5.http.accessToken == p.http.accessToken
  {
    var p3 := SocketOpened(p, 0, now, cfg).peer;
    assert p3.agent.receives == map[0 := Control.Awaiting(0, now + Delay(cfg.timeout), Control.Starter)];
    CertsExactly(Some(msg), ExtractCerts(msg));
    var p4 := MessageArrived(p3, 0, Some(msg), now).peer;
    assert p4.http.created == [ExtractCerts(msg)] && p4.http.agent == Some(0);
  }

  /** A token, an open socket and a certificate message make a peer ready, and it then forwards requests with both. */
  lemma UndisturbedStart(token: string, expiresIn: int, msg: Value, now: nat, cfg: Config)
    requires token != "" && expiresIn != 0 && IsCertsPayload(msg)
    ensures var p1 := StartBegun(INITIAL_PEER, 0);
            && 0 in p1.auth.fetches
            && var p2 := TokenFetched(p1, 0, Auth.Body(token, expiresIn, 0), 0, cfg).peer;
            && |p2.agent.sockets| > 0
            && var p4 := MessageArrived(SocketOpened(p2, 0, now, cfg).peer, 0, Some(msg), now).peer;
            && 0 in p4.agent.receives && !p4.agent.receives[0].Awaiting?
            && var p5 := ReceiveResumed(p4, 0, now, cfg).peer;
            && p5.own.isReady
            && Http.SendProxyRequest(p5.http, cfg.peerEndpoint) == Http.Forward(cfg.peerEndpoint, 1, token)
            && Http.CurrentCerts(p5.http) == Some(ExtractCerts(msg))
  {
    StartedAndFetched(token, expiresIn, cfg);
    var p2 := TokenFetched(StartBegun(INITIAL_PEER, 0), 0, Auth.Body(token, expiresIn, 0), 0, cfg).peer;
    LoadedAndReady(p2, msg, now, cfg);
  }
}
