/** A failed start attempt is tried again, in time. */
module Retrying {
  import opened Prelude
  import opened Peers
  import opened Adapter
  import opened Invariants
  import opened RetryMachine
  import opened Runs
  import opened Recovery
  import opened Settling
  import opened Timing

  /** The clean-up `c` of a failed attempt is over by the deadline. */
  ghost predicate CleansUpBy(p: PeerState, c: nat, dns: bool, deadline: nat, now: nat) {
    && c in p.agent.closes && p.agent.closes[c].purpose.ForRetry? && p.agent.closes[c].purpose.dns == dns
    && CloseBy(p.agent, c, deadline, now)
  }

  /** The retry timer `t` is due by the deadline. */
  ghost predicate RetriesBy(p: PeerState, t: nat, deadline: nat, now: nat) {
    t in p.own.retries && now <= deadline && p.own.retries[t].due <= deadline
  }

  lemma CleaningTurn(p: PeerState, ev: Event, now: nat, cfg: Config, c: nat, dns: bool, deadline: nat)
    requires CanHappen(p, ev, now) && PromisesInv(p) && CleansUpBy(p, c, dns, deadline, now)
    ensures var p' := TakeTurn(p, ev, now, cfg).peer;
            if ev == ResumeClose(c) then RetriesBy(p', p.own.next, deadline + RetryDelay(dns, cfg), now)
            else CleansUpBy(p', c, dns, deadline, now)
  {
    CloseSettles(p, ev, now, cfg, c);
    if ev == ResumeClose(c) {
      RetriesTurn(p, ev, now, cfg);
    }
  }

  lemma WaitingTurn(p: PeerState, ev: Event, now: nat, cfg: Config, t: nat, deadline: nat)
    requires CanHappen(p, ev, now) && StageInv(p) && p.own.phase.Running? && RetriesBy(p, t, deadline, now)
    requires !ev.Stop? && !ev.RetryTimer?
    ensures RetriesBy(TakeTurn(p, ev, now, cfg).peer, t, deadline, now)
  {
    var st :| InStage(p, st);
    RetriesTurn(p, ev, now, cfg);
  }

  predicate Retries(m: Move, x: Side) {
    m.On? && m.side == x && m.ev.RetryTimer?
  }

  /** Some move of the run is the firing of a retry timer of `x`, which begins the next attempt. */
  predicate RetriesIn(run: seq<Move>, x: Side)
    decreases run
  {
    run != [] && (Retries(run[0], x) || RetriesIn(run[1..], x))
  }

  lemma StepWaits(s: AdapterState, m: Move, cfg: AdapterConfig, env: Environment, x: Side, t: nat, deadline: nat)
    requires CanMove(s, m) && Allows(env, s, m) && env.Of(x).prompt && AdapterInv(s, cfg)
    requires s.Peer(x).own.phase.Running? && m != On(x, Stop) && !Retries(m, x)
    requires RetriesBy(s.Peer(x), t, deadline, s.now)
    ensures RetriesBy(Step(s, m, cfg).Peer(x), t, deadline, Step(s, m, cfg).now)
  {
    StepLocal(s, m, cfg, x);
    if m.On? && m.side == x {
      WaitingTurn(s.Peer(x), m.ev, s.now, cfg.Of(x), t, deadline);
    } else if m.Tick? {
      assert PromptUntil(s.Peer(x), s.now + m.ms);
    }
  }

  lemma {:induction false} RunWaits(
    s: AdapterState, run: seq<Move>, cfg: AdapterConfig, env: Environment, x: Side, t: nat, deadline: nat)
    requires env.Of(x).prompt && AdapterInv(s, cfg) && Legal(s, run, cfg, env) && NoStop(run, x)
    requires s.Peer(x).own.phase.Running? && RetriesBy(s.Peer(x), t, deadline, s.now)
    ensures RetriesIn(run, x) || After(s, run, cfg, env).now <= deadline
    decreases run
  {
    if run != [] && !Retries(run[0], x) {
      StepWaits(s, run[0], cfg, env, x, t, deadline);
      StepKeepsRunning(s, run[0], cfg, x);
      StepKeepsInv(s, run[0], cfg);
      assert NoStop(run[1..], x);
      RunWaits(Step(s, run[0], cfg), run[1..], cfg, env, x, t, deadline);
    }
  }

  lemma StepResumes(s: AdapterState, cfg: AdapterConfig, x: Side, c: nat, dns: bool, deadline: nat)
    requires CanMove(s, On(x, ResumeClose(c))) && AdapterInv(s, cfg) && CleansUpBy(s.Peer(x), c, dns, deadline, s.now)
    ensures var s' := Step(s, On(x, ResumeClose(c)), cfg);
            RetriesBy(s'.Peer(x), s.Peer(x).own.next, deadline + RetryDelay(dns, cfg.Of(x)), s'.now)
  {
    StepLocal(s, On(x, ResumeClose(c)), cfg, x);
    CleaningTurn(s.Peer(x), ResumeClose(c), s.now, cfg.Of(x), c, dns, deadline);
  }

  lemma OtherMoveCleans(p: PeerState, p': PeerState, c: nat, dns: bool, deadline: nat, now: nat, later: nat)
    requires CleansUpBy(p, c, dns, deadline, now) && p'.agent.closes == p.agent.closes
    requires CloseBy(p'.agent, c, deadline, later)
    ensures CleansUpBy(p', c, dns, deadline, later)
  {
  }

  lemma StepCleans(
    s: AdapterState, m: Move, cfg: AdapterConfig, env: Environment, x: Side, c: nat, dns: bool, deadline: nat)
    requires CanMove(s, m) && Allows(env, s, m) && env.Of(x).prompt && AdapterInv(s, cfg)
    requires CleansUpBy(s.Peer(x), c, dns, deadline, s.now) && m != On(x, ResumeClose(c))
    ensures CleansUpBy(Step(s, m, cfg).Peer(x), c, dns, deadline, Step(s, m, cfg).now)
  {
    StepLocal(s, m, cfg, x);
    if m.On? && m.side == x {
      CleaningTurn(s.Peer(x), m.ev, s.now, cfg.Of(x), c, dns, deadline);
    } else {
      StepKeepsDeadlines(s, m, cfg, env, x, c, deadline);
      OtherMoveCleans(s.Peer(x), Step(s, m, cfg).Peer(x), c, dns, deadline, s.now, Step(s, m, cfg).now);
    }
  }

  lemma {:induction false} RunCleans(
    s: AdapterState, run: seq<Move>, cfg: AdapterConfig, env: Environment, x: Side, c: nat, dns: bool, deadline: nat)
    requires env.Of(x).prompt && AdapterInv(s, cfg) && Legal(s, run, cfg, env) && NoStop(run, x)
    requires s.Peer(x).own.phase.Running? && CleansUpBy(s.Peer(x), c, dns, deadline, s.now)
    ensures RetriesIn(run, x) || After(s, run, cfg, env).now <= deadline + RetryDelay(dns, cfg.Of(x))
    decreases run
  {
    if run != [] {
      var next := Step(s, run[0], cfg);
      StepKeepsRunning(s, run[0], cfg, x);
      StepKeepsInv(s, run[0], cfg);
      assert NoStop(run[1..], x);
      if run[0] == On(x, ResumeClose(c)) {
        StepResumes(s, cfg, x, c, dns, deadline);
        RunWaits(next, run[1..], cfg, env, x, s.Peer(x).own.next, deadline + RetryDelay(dns, cfg.Of(x)));
      } else {
        StepCleans(s, run[0], cfg, env, x, c, dns, deadline);
        RunCleans(next, run[1..], cfg, env, x, c, dns, deadline);
      }
    }
  }

  /** The run begins with the failure of a start attempt of `x`. */
  predicate Fails(s: AdapterState, run: seq<Move>, x: Side, dns: bool) {
    run != [] && run[0].On? && run[0].side == x && FailureOf(s.Peer(x), run[0].ev) == Some(dns)
  }

  lemma FailureCleansUp(s: AdapterState, run: seq<Move>, cfg: AdapterConfig, env: Environment, x: Side, dns: bool)
    requires Legal(s, run, cfg, env) && Fails(s, run, x, dns)
    ensures var next := Step(s, run[0], cfg);
            var p := next.Peer(x);
            p.agent.next > 0 && CleansUpBy(p, p.agent.next - 1, dns, s.now + 5000, next.now)
  {
    StepLocal(s, run[0], cfg, x);
    ClosesTurn(s.Peer(x), run[0].ev, s.now, cfg.Of(x));
  }

  lemma FailedRunRetries(
    s: AdapterState, run: seq<Move>, cfg: AdapterConfig, env: Environment, x: Side, dns: bool)
    requires env.Of(x).prompt && AdapterInv(s, cfg) && Legal(s, run, cfg, env) && NoStop(run, x)
    requires s.Peer(x).own.phase.Running? && Fails(s, run, x, dns)
    ensures RetriesIn(run, x)
            || After(s, run, cfg, env).now <= s.now + 5000 + RetryDelay(dns, cfg.Of(x))
  {
    FailureCleansUp(s, run, cfg, env, x, dns);
    var next := Step(s, run[0], cfg);
    var c := next.Peer(x).agent.next - 1;
    StepKeepsRunning(s, run[0], cfg, x);
    StepKeepsInv(s, run[0], cfg);
    assert NoStop(run[1..], x);
    RunCleans(next, run[1..], cfg, env, x, c, dns, s.now + 5000);
  }

  /**
   * Whatever happened before: when a start attempt fails, then in any continuation with prompt timers and without
   * `stop` that is longer than 5 s plus the retry delay, which is the DNS delay for a DNS failure, the next attempt
   * begins.
   */
  lemma RetryHappens(
    before: seq<Move>, after: seq<Move>, cfg: AdapterConfig, history: Environment, env: Environment, x: Side, dns: bool)
    requires Legal(INITIAL_ADAPTER, before, cfg, history)
    requires Legal(After(INITIAL_ADAPTER, before, cfg, history), after, cfg, env)
    ensures var s := After(INITIAL_ADAPTER, before, cfg, history);
            var delay := Delay(1000 * if dns then cfg.Of(x).retryDnsSec else cfg.Of(x).retryStartSec);
            s.Peer(x).own.phase.Running? && Fails(s, after, x, dns) && NoStop(after, x) && env.Of(x).prompt
            && After(s, after, cfg, env).now > s.now + 5000 + delay ==>
              RetriesIn(after, x)
  {
    InitiallyInv(cfg);
    RunKeepsInv(INITIAL_ADAPTER, before, cfg, history);
    var s := After(INITIAL_ADAPTER, before, cfg, history);
    if s.Peer(x).own.phase.Running? && Fails(s, after, x, dns) && NoStop(after, x) && env.Of(x).prompt {
      FailedRunRetries(s, after, cfg, env, x, dns);
    }
  }
}
