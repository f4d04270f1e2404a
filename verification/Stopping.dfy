/** `stop` completes in time, whatever is in flight. */
module Stopping {
  import opened Prelude
  import opened Peers
  import opened Adapter
  import opened Invariants
  import opened Runs
  import opened Settling

  /** `stop` has begun; either its `close()` is pending and over by the deadline, or it has resumed. */
  ghost predicate StopsBy(p: PeerState, c: nat, deadline: nat, now: nat) {
    || p.own.phase.ClosingServer? || p.own.phase.Stopped?
    || (&& p.own.phase.ClosingAgent? && c in p.agent.closes && p.agent.closes[c].purpose.ForStop?
        && CloseBy(p.agent, c, deadline, now))
  }

  lemma TurnKeepsStopping(p: PeerState, ev: Event, now: nat, cfg: Config, c: nat, deadline: nat)
    requires CanHappen(p, ev, now) && PromisesInv(p) && StopsBy(p, c, deadline, now)
    ensures StopsBy(TakeTurn(p, ev, now, cfg).peer, c, deadline, now)
  {
    PhaseTurn(p, ev, now, cfg);
    if c in p.agent.closes {
      CloseSettles(p, ev, now, cfg, c);
    }
    if ev == ResumeClose(c) {
      ResumedStops(p, c, now, cfg);
    }
  }

  /** When the `close()` for `stop` resumes, the HTTP server is stopped next. */
  lemma ResumedStops(p: PeerState, c: nat, now: nat, cfg: Config)
    requires CanHappen(p, ResumeClose(c), now)
    ensures p.agent.closes[c].purpose.ForStop? ==> TakeTurn(p, ResumeClose(c), now, cfg).peer.own.phase.ClosingServer?
  {
  }

  lemma StepKeepsStopping(
    s: AdapterState, m: Move, cfg: AdapterConfig, env: Environment, x: Side, c: nat, deadline: nat)
    requires CanMove(s, m) && Allows(env, s, m) && env.Of(x).prompt && AdapterInv(s, cfg)
    requires StopsBy(s.Peer(x), c, deadline, s.now)
    ensures StopsBy(Step(s, m, cfg).Peer(x), c, deadline, Step(s, m, cfg).now)
  {
    StepLocal(s, m, cfg, x);
    if m.On? && m.side == x {
      TurnKeepsStopping(s.Peer(x), m.ev, s.now, cfg.Of(x), c, deadline);
    } else if c in s.Peer(x).agent.closes {
      StepKeepsDeadlines(s, m, cfg, env, x, c, deadline);
    }
  }

  lemma {:induction false} RunKeepsStopping(
    s: AdapterState, run: seq<Move>, cfg: AdapterConfig, env: Environment, x: Side, c: nat, deadline: nat)
    requires env.Of(x).prompt && AdapterInv(s, cfg) && Legal(s, run, cfg, env)
    requires StopsBy(s.Peer(x), c, deadline, s.now)
    ensures StopsBy(After(s, run, cfg, env).Peer(x), c, deadline, After(s, run, cfg, env).now)
    decreases run
  {
    if run != [] {
      StepKeepsStopping(s, run[0], cfg, env, x, c, deadline);
      StepKeepsInv(s, run[0], cfg);
      RunKeepsStopping(Step(s, run[0], cfg), run[1..], cfg, env, x, c, deadline);
    }
  }

  lemma StopBegins(p: PeerState, now: nat, cfg: Config)
    requires CanHappen(p, Stop, now)
    ensures StopsBy(TakeTurn(p, Stop, now, cfg).peer, p.agent.next, now + 5000, now)
  {
  }

  /** The control agent is closed: the HTTP server is being stopped, or is stopped already. */
  predicate AgentClosed(p: PeerState) {
    p.own.phase.ClosingServer? || p.own.phase.Stopped?
  }

  lemma PastDeadline(p: PeerState, c: nat, deadline: nat, now: nat)
    requires StopsBy(p, c, deadline, now) && now > deadline
    ensures AgentClosed(p)
  {
  }

  lemma StopStep(s: AdapterState, cfg: AdapterConfig, x: Side)
    requires CanMove(s, On(x, Stop))
    ensures var s' := Step(s, On(x, Stop), cfg);
            StopsBy(s'.Peer(x), s.Peer(x).agent.next, s.now + 5000, s'.now)
  {
    StepLocal(s, On(x, Stop), cfg, x);
    StopBegins(s.Peer(x), s.now, cfg.Of(x));
  }

  lemma StopsInTime(s: AdapterState, run: seq<Move>, cfg: AdapterConfig, env: Environment, x: Side)
    requires env.Of(x).prompt && AdapterInv(s, cfg) && Legal(s, run, cfg, env) && run != [] && run[0] == On(x, Stop)
    ensures var last := After(s, run, cfg, env);
            StopsBy(last.Peer(x), s.Peer(x).agent.next, s.now + 5000, last.now)
  {
    StopStep(s, cfg, x);
    StepKeepsInv(s, run[0], cfg);
    RunKeepsStopping(Step(s, run[0], cfg), run[1..], cfg, env, x, s.Peer(x).agent.next, s.now + 5000);
  }

  /**
   * Whatever is in flight when `stop` is called: with prompt timers, more than 5 s later the control agent is closed
   * and the HTTP server is being stopped.
   */
  lemma StopComes(
    before: seq<Move>, after: seq<Move>, cfg: AdapterConfig, history: Environment, env: Environment, x: Side)
    requires Legal(INITIAL_ADAPTER, before, cfg, history)
    requires Legal(After(INITIAL_ADAPTER, before, cfg, history), after, cfg, env)
    ensures var s := After(INITIAL_ADAPTER, before, cfg, history);
            var later := After(s, after, cfg, env);
            env.Of(x).prompt && after != [] && after[0] == On(x, Stop) && later.now > s.now + 5000 ==>
              AgentClosed(later.Peer(x))
  {
    InitiallyInv(cfg);
    RunKeepsInv(INITIAL_ADAPTER, before, cfg, history);
    var s := After(INITIAL_ADAPTER, before, cfg, history);
    if env.Of(x).prompt && after != [] && after[0] == On(x, Stop) {
      StopsInTime(s, after, cfg, env, x);
      var later := After(s, after, cfg, env);
      if later.now > s.now + 5000 {
        PastDeadline(later.Peer(x), s.Peer(x).agent.next, s.now + 5000, later.now);
      }
    }
  }
}
