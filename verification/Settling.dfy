/** Every `receive()` and every `close()` is settled once, by the first event that can, and in time. */
module Settling {
  import opened Prelude
  import opened Protocol
  import opened Peers
  import opened Adapter
  import opened Invariants
  import opened Runs
  import Control

  // ---- The first event wins ---------------------------------------------------------------------------------------

  /** What an event makes of a `receive()` promise; a settled one is left alone by everything but its own resumption. */
  function ReceiveAfter(r: nat, promise: Control.Receive, ev: Event): Control.Receive {
    match ev
    case SocketMessage(k, msg) =>
      if !promise.Awaiting? || promise.socket != k || msg.None? then promise
      else if IsWsPayload(msg.value) then Control.Received(msg.value, promise.caller)
      else Control.Rejected(promise.caller)
    case ReceiveTimer(t) => if t == r then Control.Rejected(promise.caller) else promise
    case _ => promise
  }

  /** What an event makes of a `close()` promise. */
  function CloseAfter(c: nat, promise: Control.Close, ev: Event): Control.Close {
    match ev
    case SocketClose(k) => if promise.socket == Some(k) then promise.(settled := true) else promise
    case SocketError(k) => if promise.socket == Some(k) then promise.(settled := true) else promise
    case CloseTimer(t) => if t == c then promise.(settled := true) else promise
    case _ => promise
  }

  lemma ReceiveSettles(p: PeerState, ev: Event, now: nat, cfg: Config, r: nat)
    requires CanHappen(p, ev, now) && PromisesInv(p) && r < p.agent.next
    ensures var turn := TakeTurn(p, ev, now, cfg);
            && (r in turn.peer.agent.receives <==> r in p.agent.receives && ev != ResumeReceive(r))
            && (r in turn.peer.agent.receives && !turn.crashed ==>
                  turn.peer.agent.receives[r] == ReceiveAfter(r, p.agent.receives[r], ev))
  {
    ReceivesTurn(p, ev, now, cfg);
  }

  lemma CloseSettles(p: PeerState, ev: Event, now: nat, cfg: Config, c: nat)
    requires CanHappen(p, ev, now) && PromisesInv(p) && c < p.agent.next
    ensures var turn := TakeTurn(p, ev, now, cfg);
            && (c in turn.peer.agent.closes <==> c in p.agent.closes && ev != ResumeClose(c))
            && (c in turn.peer.agent.closes ==> turn.peer.agent.closes[c] == CloseAfter(c, p.agent.closes[c], ev))
  {
    ClosesTurn(p, ev, now, cfg);
  }

  /** Once settled, no event changes the outcome. */
  lemma OutcomeStands(p: PeerState, ev: Event, now: nat, i: nat)
    requires CanHappen(p, ev, now)
    ensures i in p.agent.receives && !p.agent.receives[i].Awaiting? ==>
              ReceiveAfter(i, p.agent.receives[i], ev) == p.agent.receives[i]
    ensures i in p.agent.closes && p.agent.closes[i].settled ==>
              CloseAfter(i, p.agent.closes[i], ev) == p.agent.closes[i]
  {
  }

  // ---- Exactly once -----------------------------------------------------------------------------------------------

  /** How often a move occurs in a run. */
  function Times(run: seq<Move>, m: Move): nat
    decreases run
  {
    if run == [] then 0 else (if run[0] == m then 1 else 0) + Times(run[1..], m)
  }

  lemma TurnKeepsHandles(p: PeerState, ev: Event, now: nat, cfg: Config, i: nat)
    requires CanHappen(p, ev, now) && PromisesInv(p) && i < p.agent.next
    ensures var g := TakeTurn(p, ev, now, cfg).peer.agent;
            && i < g.next
            && (i in g.receives <==> i in p.agent.receives && ev != ResumeReceive(i))
            && (i in g.closes <==> i in p.agent.closes && ev != ResumeClose(i))
    ensures ev == ResumeReceive(i) ==> i in p.agent.receives
    ensures ev == ResumeClose(i) ==> i in p.agent.closes
  {
    ReceiveSettles(p, ev, now, cfg, i);
    CloseSettles(p, ev, now, cfg, i);
    ClosesTurn(p, ev, now, cfg);
  }

  lemma StepKeepsHandles(s: AdapterState, m: Move, cfg: AdapterConfig, x: Side, i: nat)
    requires CanMove(s, m) && AdapterInv(s, cfg) && i < s.Peer(x).agent.next
    ensures var g, g' := s.Peer(x).agent, Step(s, m, cfg).Peer(x).agent;
            && i < g'.next
            && (i in g'.receives <==> i in g.receives && m != On(x, ResumeReceive(i)))
            && (i in g'.closes <==> i in g.closes && m != On(x, ResumeClose(i)))
            && (m == On(x, ResumeReceive(i)) ==> i in g.receives)
            && (m == On(x, ResumeClose(i)) ==> i in g.closes)
  {
    StepLocal(s, m, cfg, x);
    if m.On? && m.side == x {
      TurnKeepsHandles(s.Peer(x), m.ev, s.now, cfg.Of(x), i);
    }
  }

  /** How many resumptions a promise still has before it. */
  function Left<T>(promises: map<nat, T>, i: nat): nat {
    if i in promises then 1 else 0
  }

  lemma LeftAfter<T>(promises: map<nat, T>, later: map<nat, T>, i: nat, resumed: bool)
    requires (i in later <==> i in promises && !resumed) && (resumed ==> i in promises)
    ensures Left(promises, i) == (if resumed then 1 else 0) + Left(later, i)
  {
  }

  lemma StepCounts(s: AdapterState, m: Move, cfg: AdapterConfig, x: Side, i: nat)
    requires CanMove(s, m) && AdapterInv(s, cfg) && i < s.Peer(x).agent.next
    ensures var g, g' := s.Peer(x).agent, Step(s, m, cfg).Peer(x).agent;
            && i < g'.next
            && Left(g.receives, i) == (if m == On(x, ResumeReceive(i)) then 1 else 0) + Left(g'.receives, i)
            && Left(g.closes, i) == (if m == On(x, ResumeClose(i)) then 1 else 0) + Left(g'.closes, i)
  {
    var g, g' := s.Peer(x).agent, Step(s, m, cfg).Peer(x).agent;
    StepKeepsHandles(s, m, cfg, x, i);
    LeftAfter(g.receives, g'.receives, i, m == On(x, ResumeReceive(i)));
    LeftAfter(g.closes, g'.closes, i, m == On(x, ResumeClose(i)));
  }

  lemma {:induction false} RunCountsReceive(
    s: AdapterState, run: seq<Move>, cfg: AdapterConfig, env: Environment, x: Side, r: nat)
    requires AdapterInv(s, cfg) && Legal(s, run, cfg, env) && r < s.Peer(x).agent.next
    ensures Left(s.Peer(x).agent.receives, r)
            == Times(run, On(x, ResumeReceive(r))) + Left(After(s, run, cfg, env).Peer(x).agent.receives, r)
    decreases run
  {
    if run != [] {
      StepCounts(s, run[0], cfg, x, r);
      StepKeepsInv(s, run[0], cfg);
      RunCountsReceive(Step(s, run[0], cfg), run[1..], cfg, env, x, r);
    }
  }

  lemma {:induction false} RunCountsClose(
    s: AdapterState, run: seq<Move>, cfg: AdapterConfig, env: Environment, x: Side, c: nat)
    requires AdapterInv(s, cfg) && Legal(s, run, cfg, env) && c < s.Peer(x).agent.next
    ensures Left(s.Peer(x).agent.closes, c)
            == Times(run, On(x, ResumeClose(c))) + Left(After(s, run, cfg, env).Peer(x).agent.closes, c)
    decreases run
  {
    if run != [] {
      StepCounts(s, run[0], cfg, x, c);
      StepKeepsInv(s, run[0], cfg);
      RunCountsClose(Step(s, run[0], cfg), run[1..], cfg, env, x, c);
    }
  }

  // ---- In time ----------------------------------------------------------------------------------------------------

  /** The timers of pending promises are due within the delays of `receive()` and `close()`. */
  ghost predicate DueSoon(s: Control.AgentState, timeout: int, now: nat) {
    && (forall r :: r in s.receives && s.receives[r].Awaiting? ==> s.receives[r].due <= now + Delay(timeout))
    && (forall c :: c in s.closes ==> s.closes[c].due <= now + 5000)
  }

  lemma TurnKeepsDueSoon(p: PeerState, ev: Event, now: nat, cfg: Config)
    requires CanHappen(p, ev, now) && DueSoon(p.agent, cfg.timeout, now)
    ensures DueSoon(TakeTurn(p, ev, now, cfg).peer.agent, cfg.timeout, now)
  {
    ReceivesTurn(p, ev, now, cfg);
    ClosesTurn(p, ev, now, cfg);
  }

  lemma {:induction false} RunKeepsDueSoon(
    s: AdapterState, run: seq<Move>, cfg: AdapterConfig, env: Environment, x: Side)
    requires Legal(s, run, cfg, env) && DueSoon(s.Peer(x).agent, cfg.Of(x).timeout, s.now)
    ensures DueSoon(After(s, run, cfg, env).Peer(x).agent, cfg.Of(x).timeout, After(s, run, cfg, env).now)
    decreases run
  {
    if run != [] {
      StepLocal(s, run[0], cfg, x);
      if run[0].On? && run[0].side == x {
        TurnKeepsDueSoon(s.Peer(x), run[0].ev, s.now, cfg.Of(x));
      }
      RunKeepsDueSoon(Step(s, run[0], cfg), run[1..], cfg, env, x);
    }
  }

  /** Promise `r`, if it still exists, is not past the deadline, and its timer does not exceed it. */
  ghost predicate ReceiveBy(s: Control.AgentState, r: nat, deadline: nat, now: nat) {
    r in s.receives ==> now <= deadline && (s.receives[r].Awaiting? ==> s.receives[r].due <= deadline)
  }

  ghost predicate CloseBy(s: Control.AgentState, c: nat, deadline: nat, now: nat) {
    c in s.closes ==> now <= deadline && (!s.closes[c].settled ==> s.closes[c].due <= deadline)
  }

  lemma TurnKeepsDeadlines(p: PeerState, ev: Event, now: nat, cfg: Config, i: nat, deadline: nat)
    requires CanHappen(p, ev, now) && PromisesInv(p) && i < p.agent.next
    ensures ReceiveBy(p.agent, i, deadline, now) ==> ReceiveBy(TakeTurn(p, ev, now, cfg).peer.agent, i, deadline, now)
    ensures CloseBy(p.agent, i, deadline, now) ==> CloseBy(TakeTurn(p, ev, now, cfg).peer.agent, i, deadline, now)
  {
    ReceivesTurn(p, ev, now, cfg);
    CloseSettles(p, ev, now, cfg, i);
  }

  lemma StepKeepsDeadlines(
    s: AdapterState, m: Move, cfg: AdapterConfig, env: Environment, x: Side, i: nat, deadline: nat)
    requires CanMove(s, m) && Allows(env, s, m) && env.Of(x).prompt && AdapterInv(s, cfg) && i < s.Peer(x).agent.next
    ensures var s' := Step(s, m, cfg);
            && (ReceiveBy(s.Peer(x).agent, i, deadline, s.now) ==> ReceiveBy(s'.Peer(x).agent, i, deadline, s'.now))
            && (CloseBy(s.Peer(x).agent, i, deadline, s.now) ==> CloseBy(s'.Peer(x).agent, i, deadline, s'.now))
  {
    StepLocal(s, m, cfg, x);
    if m.On? && m.side == x {
      TurnKeepsDeadlines(s.Peer(x), m.ev, s.now, cfg.Of(x), i, deadline);
    } else if m.Tick? {
      assert PromptUntil(s.Peer(x), s.now + m.ms) && NoneResuming(s.Peer(x));
    }
  }

  lemma {:induction false} RunKeepsReceiveBy(
    s: AdapterState, run: seq<Move>, cfg: AdapterConfig, env: Environment, x: Side, r: nat, deadline: nat)
    requires env.Of(x).prompt && AdapterInv(s, cfg) && Legal(s, run, cfg, env) && r < s.Peer(x).agent.next
    requires ReceiveBy(s.Peer(x).agent, r, deadline, s.now)
    ensures ReceiveBy(After(s, run, cfg, env).Peer(x).agent, r, deadline, After(s, run, cfg, env).now)
    decreases run
  {
    if run != [] {
      StepKeepsDeadlines(s, run[0], cfg, env, x, r, deadline);
      StepKeepsHandles(s, run[0], cfg, x, r);
      StepKeepsInv(s, run[0], cfg);
      RunKeepsReceiveBy(Step(s, run[0], cfg), run[1..], cfg, env, x, r, deadline);
    }
  }

  lemma {:induction false} RunKeepsCloseBy(
    s: AdapterState, run: seq<Move>, cfg: AdapterConfig, env: Environment, x: Side, c: nat, deadline: nat)
    requires env.Of(x).prompt && AdapterInv(s, cfg) && Legal(s, run, cfg, env) && c < s.Peer(x).agent.next
    requires CloseBy(s.Peer(x).agent, c, deadline, s.now)
    ensures CloseBy(After(s, run, cfg, env).Peer(x).agent, c, deadline, After(s, run, cfg, env).now)
    decreases run
  {
    if run != [] {
      StepKeepsDeadlines(s, run[0], cfg, env, x, c, deadline);
      StepKeepsHandles(s, run[0], cfg, x, c);
      StepKeepsInv(s, run[0], cfg);
      RunKeepsCloseBy(Step(s, run[0], cfg), run[1..], cfg, env, x, c, deadline);
    }
  }

  /**
   * Whatever the environment does, the awaiting code resumes from a `receive()` at most once, and exactly once when
   * more time than its timeout has passed with prompt timers.
   */
  lemma ReceiveEndsOnce(
    before: seq<Move>, after: seq<Move>, cfg: AdapterConfig, history: Environment, env: Environment, x: Side, r: nat)
    requires Legal(INITIAL_ADAPTER, before, cfg, history)
    requires Legal(After(INITIAL_ADAPTER, before, cfg, history), after, cfg, env)
    ensures var s := After(INITIAL_ADAPTER, before, cfg, history);
            var later := After(s, after, cfg, env);
            r in s.Peer(x).agent.receives ==>
              && Times(after, On(x, ResumeReceive(r))) == 1 - Left(later.Peer(x).agent.receives, r)
              && (env.Of(x).prompt && later.now > s.now + Delay(cfg.Of(x).timeout) ==>
                    Times(after, On(x, ResumeReceive(r))) == 1)
  {
    InitiallyInv(cfg);
    RunKeepsInv(INITIAL_ADAPTER, before, cfg, history);
    RunKeepsDueSoon(INITIAL_ADAPTER, before, cfg, history, x);
    var s := After(INITIAL_ADAPTER, before, cfg, history);
    if r in s.Peer(x).agent.receives {
      RunCountsReceive(s, after, cfg, env, x, r);
      if env.Of(x).prompt {
        RunKeepsReceiveBy(s, after, cfg, env, x, r, s.now + Delay(cfg.Of(x).timeout));
      }
    }
  }

  /** The same holds for every `close()`, within 5 s. */
  lemma CloseEndsOnce(
    before: seq<Move>, after: seq<Move>, cfg: AdapterConfig, history: Environment, env: Environment, x: Side, c: nat)
    requires Legal(INITIAL_ADAPTER, before, cfg, history)
    requires Legal(After(INITIAL_ADAPTER, before, cfg, history), after, cfg, env)
    ensures var s := After(INITIAL_ADAPTER, before, cfg, history);
            var later := After(s, after, cfg, env);
            c in s.Peer(x).agent.closes ==>
              && Times(after, On(x, ResumeClose(c))) == 1 - Left(later.Peer(x).agent.closes, c)
              && (env.Of(x).prompt && later.now > s.now + 5000 ==>
                    Times(after, On(x, ResumeClose(c))) == 1)
  {
    InitiallyInv(cfg);
    RunKeepsInv(INITIAL_ADAPTER, before, cfg, history);
    RunKeepsDueSoon(INITIAL_ADAPTER, before, cfg, history, x);
    var s := After(INITIAL_ADAPTER, before, cfg, history);
    if c in s.Peer(x).agent.closes {
      RunCountsClose(s, after, cfg, env, x, c);
      if env.Of(x).prompt {
        RunKeepsCloseBy(s, after, cfg, env, x, c, s.now + 5000);
      }
    }
  }
}
