/** A ready peer asks its hub for the JWS keys once in every interval, for as long as it is not stopped. */
module JwsLoop {
  import opened Prelude
  import opened Peers
  import opened Adapter
  import opened Invariants
  import opened RetryMachine
  import opened Runs
  import opened Recovery

  // ---- One timer --------------------------------------------------------------------------------------------------

  /** In the stage Ready the stored interval is running. */
  predicate JwsAt(s: OwnState, st: Stage) {
    st.Ready? ==> s.peerJwsRefreshLoopTimer.Some? && s.peerJwsRefreshLoopTimer.value in s.jwsLoops
  }

  lemma ReceiveResumedJws(p: PeerState, st: Stage, r: nat, now: nat, cfg: Config)
    requires r in p.agent.receives && !p.agent.receives[r].Awaiting? && InStage(p, st) && JwsAt(p.own, st)
    ensures JwsAt(ReceiveResumed(p, r, now, cfg).peer.own, NextStage(p, st, ResumeReceive(r)))
  {
  }

  lemma AttemptTurnsJws(p: PeerState, st: Stage, ev: Event, now: nat, cfg: Config)
    requires CanHappen(p, ev, now) && InStage(p, st) && JwsAt(p.own, st) && (ev.TokenFetch? || ev.SocketOpen?)
    ensures JwsAt(TakeTurn(p, ev, now, cfg).peer.own, NextStage(p, st, ev))
  {
  }

  lemma TurnKeepsJws(p: PeerState, st: Stage, ev: Event, now: nat, cfg: Config)
    requires CanHappen(p, ev, now) && InStage(p, st) && JwsAt(p.own, st) && !ev.Stop?
    ensures JwsAt(TakeTurn(p, ev, now, cfg).peer.own, NextStage(p, st, ev))
  {
    if ev.TokenFetch? || ev.SocketOpen? {
      AttemptTurnsJws(p, st, ev, now, cfg);
    } else if ev.ResumeReceive? {
      ReceiveResumedJws(p, st, ev.receive, now, cfg);
    }
  }

  ghost predicate JwsInv(p: PeerState) {
    p.own.phase.Running? ==> exists st :: InStage(p, st) && JwsAt(p.own, st)
  }

  lemma TurnKeepsJwsInv(p: PeerState, ev: Event, now: nat, cfg: Config)
    requires CanHappen(p, ev, now) && PeerInv(p, now, cfg) && JwsInv(p)
    ensures JwsInv(TakeTurn(p, ev, now, cfg).peer)
  {
    PhaseTurn(p, ev, now, cfg);
    if TakeTurn(p, ev, now, cfg).peer.own.phase.Running? {
      var st :| InStage(p, st) && JwsAt(p.own, st);
      StageTurn(p, st, ev, now, cfg);
      TurnKeepsJws(p, st, ev, now, cfg);
    }
  }

  lemma OtherKeepsJwsInv(p: PeerState, p': PeerState)
    requires JwsInv(p)
    requires p'.own == p.own && p'.auth == p.auth && p'.agent == p.agent.(sent := p'.agent.sent)
    ensures JwsInv(p')
  {
    if p.own.phase.Running? {
      var st :| InStage(p, st) && JwsAt(p.own, st);
      assert InStage(p', st);
    }
  }

  lemma StepKeepsJws(s: AdapterState, m: Move, cfg: AdapterConfig, x: Side)
    requires CanMove(s, m) && AdapterInv(s, cfg) && JwsInv(s.Peer(x))
    ensures JwsInv(Step(s, m, cfg).Peer(x))
  {
    StepLocal(s, m, cfg, x);
    var p, p' := s.Peer(x), Step(s, m, cfg).Peer(x);
    if m.On? && m.side == x {
      TurnKeepsJwsInv(p, m.ev, s.now, cfg.Of(x));
      assert p' == TakeTurn(p, m.ev, s.now, cfg.Of(x)).peer;
    } else {
      OtherKeepsJwsInv(p, p');
    }
  }

  lemma {:induction false} RunKeepsJws(s: AdapterState, run: seq<Move>, cfg: AdapterConfig, env: Environment, x: Side)
    requires AdapterInv(s, cfg) && Legal(s, run, cfg, env) && JwsInv(s.Peer(x))
    ensures JwsInv(After(s, run, cfg, env).Peer(x))
    decreases run
  {
    if run != [] {
      StepKeepsJws(s, run[0], cfg, x);
      StepKeepsInv(s, run[0], cfg);
      RunKeepsJws(Step(s, run[0], cfg), run[1..], cfg, env, x);
    }
  }

  lemma InitiallyJws()
    ensures JwsInv(INITIAL_PEER)
  {
    assert InStage(INITIAL_PEER, Idle);
  }

  /** The stored interval is running, and no other. */
  ghost predicate OneInterval(s: OwnState) {
    && s.peerJwsRefreshLoopTimer.Some?
    && s.jwsLoops.Keys == {s.peerJwsRefreshLoopTimer.value}
  }

  lemma ReadyHasOne(p: PeerState)
    requires JwsInv(p) && p.own.phase.Running? && p.own.isReady
    ensures InStage(p, Ready) && OneInterval(p.own)
  {
    var st :| InStage(p, st) && JwsAt(p.own, st);
    assert st == Ready;
  }

  /** After every run a ready peer that is not stopped has exactly one JWS interval, the stored one. */
  lemma OneJwsInterval(run: seq<Move>, cfg: AdapterConfig, env: Environment, x: Side)
    requires Legal(INITIAL_ADAPTER, run, cfg, env)
    ensures var p := After(INITIAL_ADAPTER, run, cfg, env).Peer(x);
            p.own.phase.Running? && p.own.isReady ==> OneInterval(p.own)
  {
    InitiallyInv(cfg);
    InitiallyJws();
    RunKeepsJws(INITIAL_ADAPTER, run, cfg, env, x);
    var p := After(INITIAL_ADAPTER, run, cfg, env).Peer(x);
    if p.own.phase.Running? && p.own.isReady {
      ReadyHasOne(p);
    }
  }

  // ---- It goes on -------------------------------------------------------------------------------------------------

  predicate Asks(m: Move, x: Side) {
    m.On? && m.side == x && m.ev.JwsTimer?
  }

  /** Some move of the run is the firing of the interval of `x`. */
  predicate AsksIn(run: seq<Move>, x: Side)
    decreases run
  {
    run != [] && (Asks(run[0], x) || AsksIn(run[1..], x))
  }

  /** While a peer is ready, nothing but its own firing changes the interval. */
  lemma ReadyTurn(p: PeerState, ev: Event, now: nat, cfg: Config)
    requires CanHappen(p, ev, now) && InStage(p, Ready) && !ev.Stop? && !ev.JwsTimer?
    ensures TakeTurn(p, ev, now, cfg).peer.own.jwsLoops == p.own.jwsLoops
  {
  }

  /** Every interval is due by the deadline, which has not passed. */
  ghost predicate AsksBy(p: PeerState, deadline: nat, now: nat) {
    now <= deadline && forall t :: t in p.own.jwsLoops ==> p.own.jwsLoops[t] <= deadline
  }

  ghost predicate IsReady(p: PeerState) {
    JwsInv(p) && p.own.phase.Running? && p.own.isReady
  }

  lemma StepKeepsReady(s: AdapterState, m: Move, cfg: AdapterConfig, x: Side)
    requires CanMove(s, m) && AdapterInv(s, cfg) && m != On(x, Stop) && IsReady(s.Peer(x))
    ensures IsReady(Step(s, m, cfg).Peer(x))
  {
    ReadyHasOne(s.Peer(x));
    StepRefines(s, m, cfg, x, Ready);
    StepKeepsRunning(s, m, cfg, x);
    StepKeepsJws(s, m, cfg, x);
  }

  lemma StepWaits(s: AdapterState, m: Move, cfg: AdapterConfig, env: Environment, x: Side, deadline: nat)
    requires CanMove(s, m) && Allows(env, s, m) && env.Of(x).prompt && m != On(x, Stop) && !Asks(m, x)
    requires IsReady(s.Peer(x)) && AsksBy(s.Peer(x), deadline, s.now)
    ensures AsksBy(Step(s, m, cfg).Peer(x), deadline, Step(s, m, cfg).now)
  {
    ReadyHasOne(s.Peer(x));
    StepLocal(s, m, cfg, x);
    if m.On? && m.side == x {
      ReadyTurn(s.Peer(x), m.ev, s.now, cfg.Of(x));
    } else if m.Tick? {
      assert PromptUntil(s.Peer(x), s.now + m.ms);
      assert s.Peer(x).own.peerJwsRefreshLoopTimer.value in s.Peer(x).own.jwsLoops;
    }
  }

  lemma {:induction false} RunAsks(
    s: AdapterState, run: seq<Move>, cfg: AdapterConfig, env: Environment, x: Side, deadline: nat)
    requires env.Of(x).prompt && AdapterInv(s, cfg) && Legal(s, run, cfg, env) && NoStop(run, x)
    requires IsReady(s.Peer(x)) && AsksBy(s.Peer(x), deadline, s.now)
    ensures AsksIn(run, x) || After(s, run, cfg, env).now <= deadline
    decreases run
  {
    if run != [] && !Asks(run[0], x) {
      StepWaits(s, run[0], cfg, env, x, deadline);
      StepKeepsReady(s, run[0], cfg, x);
      StepKeepsInv(s, run[0], cfg);
      assert NoStop(run[1..], x);
      RunAsks(Step(s, run[0], cfg), run[1..], cfg, env, x, deadline);
    }
  }

  /** No interval is due later than one interval from now. */
  ghost predicate DueInTime(p: PeerState, now: nat, interval: int) {
    forall t :: t in p.own.jwsLoops ==> p.own.jwsLoops[t] <= now + Delay(interval)
  }

  lemma ReceiveResumedDue(p: PeerState, r: nat, now: nat, cfg: Config)
    requires r in p.agent.receives && !p.agent.receives[r].Awaiting? && DueInTime(p, now, cfg.checkPeerJwsInterval)
    ensures DueInTime(ReceiveResumed(p, r, now, cfg).peer, now, cfg.checkPeerJwsInterval)
  {
  }

  lemma TurnKeepsDue(p: PeerState, ev: Event, now: nat, cfg: Config)
    requires CanHappen(p, ev, now) && DueInTime(p, now, cfg.checkPeerJwsInterval)
    ensures DueInTime(TakeTurn(p, ev, now, cfg).peer, now, cfg.checkPeerJwsInterval)
  {
    if ev.ResumeReceive? {
      ReceiveResumedDue(p, ev.receive, now, cfg);
    }
  }

  lemma {:induction false} RunKeepsDue(s: AdapterState, run: seq<Move>, cfg: AdapterConfig, env: Environment, x: Side)
    requires Legal(s, run, cfg, env) && DueInTime(s.Peer(x), s.now, cfg.Of(x).checkPeerJwsInterval)
    ensures var last := After(s, run, cfg, env);
            DueInTime(last.Peer(x), last.now, cfg.Of(x).checkPeerJwsInterval)
    decreases run
  {
    if run != [] {
      StepLocal(s, run[0], cfg, x);
      if run[0].On? && run[0].side == x {
        TurnKeepsDue(s.Peer(x), run[0].ev, s.now, cfg.Of(x));
      }
      RunKeepsDue(Step(s, run[0], cfg), run[1..], cfg, env, x);
    }
  }

  /**
   * Whatever happened before, a ready peer asks for the JWS keys again: with prompt timers, any continuation without
   * `stop` that is longer than the interval contains a firing of it.
   */
  lemma JwsGoesOn(
    before: seq<Move>, after: seq<Move>, cfg: AdapterConfig, history: Environment, env: Environment, x: Side)
    requires Legal(INITIAL_ADAPTER, before, cfg, history)
    requires Legal(After(INITIAL_ADAPTER, before, cfg, history), after, cfg, env)
    ensures var s := After(INITIAL_ADAPTER, before, cfg, history);
            s.Peer(x).own.phase.Running? && s.Peer(x).own.isReady && NoStop(after, x) && env.Of(x).prompt
            && After(s, after, cfg, env).now > s.now + Delay(cfg.Of(x).checkPeerJwsInterval) ==>
              AsksIn(after, x)
  {
    InitiallyInv(cfg);
    InitiallyJws();
    RunKeepsInv(INITIAL_ADAPTER, before, cfg, history);
    RunKeepsJws(INITIAL_ADAPTER, before, cfg, history, x);
    RunKeepsDue(INITIAL_ADAPTER, before, cfg, history, x);
    var s := After(INITIAL_ADAPTER, before, cfg, history);
    if s.Peer(x).own.phase.Running? && s.Peer(x).own.isReady && NoStop(after, x) && env.Of(x).prompt {
      RunAsks(s, after, cfg, env, x, s.now + Delay(cfg.Of(x).checkPeerJwsInterval));
    }
  }

  // ---- But not sooner ---------------------------------------------------------------------------------------------

  ghost predicate NotBefore(p: PeerState, time: nat) {
    forall t :: t in p.own.jwsLoops ==> time <= p.own.jwsLoops[t]
  }

  /** The interval of `x` fires in the move, or `x` becomes ready. */
  predicate Restarts(s: AdapterState, m: Move, cfg: AdapterConfig, x: Side)
    requires CanMove(s, m)
  {
    Asks(m, x) || (!s.Peer(x).own.isReady && Step(s, m, cfg).Peer(x).own.isReady)
  }

  lemma BecomingTurn(p: PeerState, ev: Event, now: nat, cfg: Config)
    requires CanHappen(p, ev, now) && JwsInv(p) && p.own.phase.Running? && !p.own.isReady
    requires TakeTurn(p, ev, now, cfg).peer.own.isReady
    ensures NotBefore(TakeTurn(p, ev, now, cfg).peer, now + Delay(cfg.checkPeerJwsInterval))
  {
    var st :| InStage(p, st);
    assert p.own.jwsLoops == map[];
    ReadyExactly(p, ev, now, cfg);
  }

  lemma FiringMeansReady(p: PeerState, t: nat)
    requires JwsInv(p) && p.own.phase.Running? && t in p.own.jwsLoops
    ensures p.own.isReady && OneInterval(p.own)
  {
    var st :| InStage(p, st) && JwsAt(p.own, st);
    assert st.Ready?;
  }

  lemma RestartTurn(p: PeerState, ev: Event, now: nat, cfg: Config)
    requires CanHappen(p, ev, now) && JwsInv(p) && p.own.phase.Running?
    requires ev.JwsTimer? || (!p.own.isReady && TakeTurn(p, ev, now, cfg).peer.own.isReady)
    ensures ev.JwsTimer? ==> p.own.isReady
    ensures NotBefore(TakeTurn(p, ev, now, cfg).peer, now + Delay(cfg.checkPeerJwsInterval))
  {
    if ev.JwsTimer? {
      FiringMeansReady(p, ev.timer);
      FiringTurn(p, ev.timer, now, cfg);
    } else {
      BecomingTurn(p, ev, now, cfg);
    }
  }

  lemma RestartMove(s: AdapterState, m: Move, cfg: AdapterConfig, x: Side)
    requires CanMove(s, m) && JwsInv(s.Peer(x)) && s.Peer(x).own.phase.Running? && Restarts(s, m, cfg, x)
    ensures Asks(m, x) ==> s.Peer(x).own.isReady
    ensures NotBefore(Step(s, m, cfg).Peer(x), s.now + Delay(cfg.Of(x).checkPeerJwsInterval))
  {
    StepLocal(s, m, cfg, x);
    RestartTurn(s.Peer(x), m.ev, s.now, cfg.Of(x));
  }

  lemma FiringTurn(p: PeerState, t: nat, now: nat, cfg: Config)
    requires CanHappen(p, JwsTimer(t), now) && OneInterval(p.own)
    ensures NotBefore(TakeTurn(p, JwsTimer(t), now, cfg).peer, now + Delay(cfg.checkPeerJwsInterval))
  {
  }

  lemma NotBeforeTurn(p: PeerState, ev: Event, now: nat, cfg: Config, time: nat)
    requires CanHappen(p, ev, now) && NotBefore(p, time) && InStage(p, Ready) && !ev.Stop?
    requires time <= now + Delay(cfg.checkPeerJwsInterval)
    ensures NotBefore(TakeTurn(p, ev, now, cfg).peer, time)
  {
    if !ev.JwsTimer? {
      ReadyTurn(p, ev, now, cfg);
    }
  }

  lemma {:induction false} RunNotBefore(
    s: AdapterState, run: seq<Move>, cfg: AdapterConfig, env: Environment, x: Side, time: nat)
    requires AdapterInv(s, cfg) && Legal(s, run, cfg, env) && NoStop(run, x) && IsReady(s.Peer(x))
    requires NotBefore(s.Peer(x), time) && time <= s.now + Delay(cfg.Of(x).checkPeerJwsInterval)
    ensures NotBefore(After(s, run, cfg, env).Peer(x), time)
    decreases run
  {
    if run != [] {
      ReadyHasOne(s.Peer(x));
      StepLocal(s, run[0], cfg, x);
      if run[0].On? && run[0].side == x {
        NotBeforeTurn(s.Peer(x), run[0].ev, s.now, cfg.Of(x), time);
      }
      StepKeepsReady(s, run[0], cfg, x);
      StepKeepsInv(s, run[0], cfg);
      assert NoStop(run[1..], x);
      RunNotBefore(Step(s, run[0], cfg), run[1..], cfg, env, x, time);
    }
  }

  lemma AfterRestart(s: AdapterState, run: seq<Move>, cfg: AdapterConfig, env: Environment, x: Side)
    requires AdapterInv(s, cfg) && Legal(s, run, cfg, env) && NoStop(run, x)
    requires JwsInv(s.Peer(x)) && s.Peer(x).own.phase.Running?
    requires run != [] && Restarts(s, run[0], cfg, x)
    ensures NotBefore(After(s, run, cfg, env).Peer(x), s.now + Delay(cfg.Of(x).checkPeerJwsInterval))
  {
    RestartMove(s, run[0], cfg, x);
    StepLocal(s, run[0], cfg, x);
    StepKeepsJws(s, run[0], cfg, x);
    StepKeepsRunning(s, run[0], cfg, x);
    if s.Peer(x).own.isReady {
      StepKeepsReady(s, run[0], cfg, x);
    }
    StepKeepsInv(s, run[0], cfg);
    assert NoStop(run[1..], x);
    RunNotBefore(Step(s, run[0], cfg), run[1..], cfg, env, x, s.now + Delay(cfg.Of(x).checkPeerJwsInterval));
  }

  ghost predicate FiresFrom(p: PeerState, time: nat, now: nat) {
    forall t :: CanHappen(p, JwsTimer(t), now) ==> time <= now
  }

  lemma NotBeforeFires(p: PeerState, time: nat, now: nat)
    requires NotBefore(p, time)
    ensures FiresFrom(p, time, now)
  {
  }

  /**
   * After a peer became ready, and after each firing, the next one cannot happen before a whole interval has passed.
   */
  lemma JwsNotSooner(
    before: seq<Move>, after: seq<Move>, cfg: AdapterConfig, history: Environment, env: Environment, x: Side)
    requires Legal(INITIAL_ADAPTER, before, cfg, history)
    requires Legal(After(INITIAL_ADAPTER, before, cfg, history), after, cfg, env)
    ensures var s := After(INITIAL_ADAPTER, before, cfg, history);
            var later := After(s, after, cfg, env);
            s.Peer(x).own.phase.Running? && NoStop(after, x) && after != [] && Restarts(s, after[0], cfg, x) ==>
              FiresFrom(later.Peer(x), s.now + Delay(cfg.Of(x).checkPeerJwsInterval), later.now)
  {
    InitiallyInv(cfg);
    InitiallyJws();
    RunKeepsInv(INITIAL_ADAPTER, before, cfg, history);
    RunKeepsJws(INITIAL_ADAPTER, before, cfg, history, x);
    var s := After(INITIAL_ADAPTER, before, cfg, history);
    if s.Peer(x).own.phase.Running? && NoStop(after, x) && after != [] && Restarts(s, after[0], cfg, x) {
      AfterRestart(s, after, cfg, env, x);
      var later := After(s, after, cfg, env);
      NotBeforeFires(later.Peer(x), s.now + Delay(cfg.Of(x).checkPeerJwsInterval), later.now);
    }
  }
}
