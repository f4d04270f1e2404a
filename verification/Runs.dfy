/** What holds in every state of every run of the adapter, whatever the environment does. */
module Runs {
  import opened Prelude
  import opened Peers
  import opened Adapter
  import opened Invariants
  import opened RetryMachine
  import Control

  /**
   * One peer on its own: refresh loops, HTTPS agents, `close()` promises, watchdog, and the stage of the start
   * procedure.
   */
  ghost predicate PeerInv(p: PeerState, now: nat, cfg: Config) {
    && AuthInv(p.auth)
    && HttpInv(p, now)
    && PromisesInv(p)
    && Control.WatchInv(p.agent.watch, cfg.timeout, now)
    && StageInv(p)
  }

  ghost predicate StageInv(p: PeerState) {
    p.own.phase.Running? ==> exists st :: InStage(p, st)
  }

  lemma StageTurn(p: PeerState, st: Stage, ev: Event, now: nat, cfg: Config)
    requires CanHappen(p, ev, now) && AuthInv(p.auth) && PromisesInv(p)
    requires InStage(p, st) && Counts(p, st, ev)
    ensures InStage(TakeTurn(p, ev, now, cfg).peer, NextStage(p, st, ev))
  {
    FetchStage(p, st, ev, now, cfg);
    AgentStage(p, st, ev, now, cfg);
    OwnStage(p, st, ev, now, cfg);
  }

  lemma TurnKeepsStage(p: PeerState, ev: Event, now: nat, cfg: Config)
    requires CanHappen(p, ev, now) && PeerInv(p, now, cfg)
    ensures StageInv(TakeTurn(p, ev, now, cfg).peer)
  {
    PhaseTurn(p, ev, now, cfg);
    if TakeTurn(p, ev, now, cfg).peer.own.phase.Running? {
      var st :| InStage(p, st);
      StageTurn(p, st, ev, now, cfg);
    }
  }

  lemma TurnKeepsInv(p: PeerState, ev: Event, now: nat, cfg: Config)
    requires CanHappen(p, ev, now) && PeerInv(p, now, cfg)
    ensures PeerInv(TakeTurn(p, ev, now, cfg).peer, now, cfg)
  {
    AuthKept(p, ev, now, cfg);
    HttpKept(p, ev, now, cfg);
    PromisesKept(p, ev, now, cfg);
    WatchKept(p, ev, now, cfg);
    TurnKeepsStage(p, ev, now, cfg);
  }

  /** Neither time nor the other peer's turns can break it. */
  lemma OtherKeepsInv(p: PeerState, p': PeerState, now: nat, later: nat, cfg: Config)
    requires PeerInv(p, now, cfg) && now <= later
    requires p'.own == p.own && p'.auth == p.auth && p'.http == p.http && p'.agent == p.agent.(sent := p'.agent.sent)
    ensures PeerInv(p', later, cfg)
  {
    if p.own.phase.Running? {
      var st :| InStage(p, st);
      assert InStage(p', st);
    }
  }


  ghost predicate AdapterInv(s: AdapterState, cfg: AdapterConfig) {
    PeerInv(s.a, s.now, cfg.a) && PeerInv(s.b, s.now, cfg.b)
  }

  lemma InitiallyInv(cfg: AdapterConfig)
    ensures AdapterInv(INITIAL_ADAPTER, cfg)
  {
    assert InStage(INITIAL_PEER, Idle);
  }

  lemma StepKeepsPeerInv(s: AdapterState, m: Move, cfg: AdapterConfig, x: Side)
    requires CanMove(s, m) && PeerInv(s.Peer(x), s.now, cfg.Of(x))
    ensures PeerInv(Step(s, m, cfg).Peer(x), Step(s, m, cfg).now, cfg.Of(x))
  {
    StepLocal(s, m, cfg, x);
    var p, p', later := s.Peer(x), Step(s, m, cfg).Peer(x), Step(s, m, cfg).now;
    if m.On? && m.side == x {
      TurnKeepsInv(p, m.ev, s.now, cfg.Of(x));
      assert p' == TakeTurn(p, m.ev, s.now, cfg.Of(x)).peer && later == s.now;
    } else {
      OtherKeepsInv(p, p', s.now, later, cfg.Of(x));
    }
  }

  lemma StepKeepsInv(s: AdapterState, m: Move, cfg: AdapterConfig)
    requires CanMove(s, m) && AdapterInv(s, cfg)
    ensures AdapterInv(Step(s, m, cfg), cfg)
  {
    StepKeepsPeerInv(s, m, cfg, A);
    StepKeepsPeerInv(s, m, cfg, B);
  }

  /** The invariant of both peers holds after every run. */
  lemma {:induction false} RunKeepsInv(s: AdapterState, run: seq<Move>, cfg: AdapterConfig, env: Environment)
    requires AdapterInv(s, cfg) && Legal(s, run, cfg, env)
    ensures AdapterInv(After(s, run, cfg, env), cfg)
    decreases run
  {
    if run != [] {
      StepKeepsInv(s, run[0], cfg);
      RunKeepsInv(Step(s, run[0], cfg), run[1..], cfg, env);
    }
  }
}
