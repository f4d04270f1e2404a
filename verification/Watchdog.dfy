/** The ping watchdog of the control agent over whole runs: when it stays silent, and when `open()` runs again. */
module Watchdog {
  import opened Prelude
  import opened Peers
  import opened Adapter
  import opened Runs
  import Auth
  import Control
  import Recovery

  /** In one turn a watchdog is left alone, re-armed, or disarmed. */
  ghost predicate WatchMoves(w: Control.Watch, w': Control.Watch, now: nat) {
    || w' == w
    || w'.armedAt == now
    || (w'.pings == map[] && !w'.armed && w'.armedAt == w.armedAt)
  }

  lemma TokenFetchedMovesWatch(p: PeerState, f: nat, r: Auth.Response, now: nat, cfg: Config)
    requires f in p.auth.fetches && Control.WatchInv(p.agent.watch, cfg.timeout, now)
    ensures WatchMoves(p.agent.watch, TokenFetched(p, f, r, now, cfg).peer.agent.watch, now)
  {
    Control.ClosingForKeeps(p.agent, Control.ForStop, now, cfg.timeout);
  }

  lemma LoadCertsMovesWatch(p: PeerState, k: nat, now: nat, cfg: Config)
    requires Control.WatchInv(p.agent.watch, cfg.timeout, now)
    ensures k < |p.agent.sockets| ==> WatchMoves(p.agent.watch, SocketOpened(p, k, now, cfg).peer.agent.watch, now)
    ensures k in p.agent.receives && !p.agent.receives[k].Awaiting? ==>
              WatchMoves(p.agent.watch, ReceiveResumed(p, k, now, cfg).peer.agent.watch, now)
  {
    Control.ClosingForKeeps(p.agent, Control.ForStop, now, cfg.timeout);
  }

  lemma WatchTurn(p: PeerState, ev: Event, now: nat, cfg: Config)
    requires CanHappen(p, ev, now) && Control.WatchInv(p.agent.watch, cfg.timeout, now)
    ensures WatchMoves(p.agent.watch, TakeTurn(p, ev, now, cfg).peer.agent.watch, now)
  {
    match ev
    case TokenFetch(f, r) => TokenFetchedMovesWatch(p, f, r, now, cfg);
    case SocketOpen(k) => LoadCertsMovesWatch(p, k, now, cfg);
    case ResumeReceive(r) => LoadCertsMovesWatch(p, r, now, cfg);
    case Stop => Control.ClosingForKeeps(p.agent, Control.ForStop, now, cfg.timeout);
    case _ =>
  }

  /** A ping, or a close event before the first `close()`. */
  predicate Rearms(p: PeerState, ev: Event) {
    ev.SocketPing? || (ev.SocketClose? && p.agent.shouldReconnect)
  }

  /** A turn that calls `open()`: a start attempt has got its token, or the watchdog fires. */
  predicate Opens(p: PeerState, ev: Event) {
    || ev.PingTimer?
    || (ev.TokenFetch? && ev.fetch in p.auth.fetches && p.auth.fetches[ev.fetch].awaited
        && Auth.BringsToken(ev.response))
  }

  lemma RearmsNow(p: PeerState, ev: Event, now: nat, cfg: Config)
    requires CanHappen(p, ev, now) && (Rearms(p, ev) || Opens(p, ev))
    ensures TakeTurn(p, ev, now, cfg).peer.agent.watch.armedAt == now
  {
  }

  // ---- When the watchdog stays silent -----------------------------------------------------------------------------

  ghost predicate ArmedSince(p: PeerState, t: nat) {
    t <= p.agent.watch.armedAt
  }

  lemma StepKeepsArmed(s: AdapterState, m: Move, cfg: AdapterConfig, x: Side, t: nat)
    requires CanMove(s, m) && AdapterInv(s, cfg) && ArmedSince(s.Peer(x), t) && t <= s.now
    ensures ArmedSince(Step(s, m, cfg).Peer(x), t)
    ensures m.On? && m.side == x && (Rearms(s.Peer(x), m.ev) || Opens(s.Peer(x), m.ev)) ==>
              ArmedSince(Step(s, m, cfg).Peer(x), s.now)
  {
    StepLocal(s, m, cfg, x);
    if m.On? && m.side == x {
      WatchTurn(s.Peer(x), m.ev, s.now, cfg.Of(x));
      if Rearms(s.Peer(x), m.ev) || Opens(s.Peer(x), m.ev) {
        RearmsNow(s.Peer(x), m.ev, s.now, cfg.Of(x));
      }
    }
  }

  lemma FiringMeansSilence(p: PeerState, t: nat, now: nat, cfg: Config, since: nat)
    requires Control.WatchInv(p.agent.watch, cfg.timeout, now) && ArmedSince(p, since)
             && CanHappen(p, PingTimer(t), now)
    ensures since + Delay(30_000 + cfg.timeout) <= now
  {
  }

  /**
   * A re-arming in every window: no move of the run comes a whole window or more after the last one, `last` at the
   * beginning. An event of peer `x` counts when it is a ping, a close event before the first `close()`, or a call of
   * `open()`.
   */
  ghost predicate RearmedInTime(
    s: AdapterState, run: seq<Move>, cfg: AdapterConfig, env: Environment, x: Side, last: nat)
    requires Legal(s, run, cfg, env)
    decreases run
  {
    run != [] ==>
      && s.now < last + Delay(30_000 + cfg.Of(x).timeout)
      && RearmedInTime(Step(s, run[0], cfg), run[1..], cfg, env, x, LastRearming(s, run[0], x, last))
  }

  function LastRearming(s: AdapterState, m: Move, x: Side, last: nat): nat {
    if m.On? && m.side == x && (Rearms(s.Peer(x), m.ev) || Opens(s.Peer(x), m.ev)) then s.now else last
  }

  predicate Fires(m: Move, x: Side) {
    m.On? && m.side == x && m.ev.PingTimer?
  }

  predicate NeverFires(run: seq<Move>, x: Side) {
    forall i | 0 <= i < |run| :: !Fires(run[i], x)
  }

  lemma SilentSoFar(s: AdapterState, m: Move, cfg: AdapterConfig, x: Side, last: nat)
    requires CanMove(s, m) && AdapterInv(s, cfg) && ArmedSince(s.Peer(x), last)
    requires s.now < last + Delay(30_000 + cfg.Of(x).timeout)
    ensures !Fires(m, x)
  {
    if Fires(m, x) {
      FiringMeansSilence(s.Peer(x), m.ev.timer, s.now, cfg.Of(x), last);
    }
  }

  lemma {:induction false} RunStaysSilent(
    s: AdapterState, run: seq<Move>, cfg: AdapterConfig, env: Environment, x: Side, last: nat)
    requires AdapterInv(s, cfg) && Legal(s, run, cfg, env) && ArmedSince(s.Peer(x), last) && last <= s.now
    requires RearmedInTime(s, run, cfg, env, x, last)
    ensures NeverFires(run, x)
    decreases run
  {
    if run != [] {
      SilentSoFar(s, run[0], cfg, x, last);
      StepKeepsArmed(s, run[0], cfg, x, last);
      StepKeepsInv(s, run[0], cfg);
      RunStaysSilent(Step(s, run[0], cfg), run[1..], cfg, env, x, LastRearming(s, run[0], x, last));
      NeverFiresCons(run, x);
    }
  }

  lemma NeverFiresCons(run: seq<Move>, x: Side)
    requires run != [] && !Fires(run[0], x) && NeverFires(run[1..], x)
    ensures NeverFires(run, x)
  {
    assert forall i | 0 < i < |run| :: run[i] == run[1..][i - 1];
  }

  /** While the watchdog is re-armed in every window it never fires, whatever else happens, in any run. */
  lemma PingsHoldWatchdogOff(
    before: seq<Move>, after: seq<Move>, cfg: AdapterConfig, history: Environment, env: Environment, x: Side)
    requires Legal(INITIAL_ADAPTER, before, cfg, history)
    requires Legal(After(INITIAL_ADAPTER, before, cfg, history), after, cfg, env)
    ensures var s := After(INITIAL_ADAPTER, before, cfg, history);
            RearmedInTime(s, after, cfg, env, x, s.Peer(x).agent.watch.armedAt) ==> NeverFires(after, x)
  {
    InitiallyInv(cfg);
    RunKeepsInv(INITIAL_ADAPTER, before, cfg, history);
    var s := After(INITIAL_ADAPTER, before, cfg, history);
    if RearmedInTime(s, after, cfg, env, x, s.Peer(x).agent.watch.armedAt) {
      RunStaysSilent(s, after, cfg, env, x, s.Peer(x).agent.watch.armedAt);
    }
  }

  // ---- When `open()` runs again -----------------------------------------------------------------------------------

  /**
   * In every state of the run the watchdog is armed, and no move of it re-arms the watchdog without calling `open()`.
   */
  ghost predicate Undisturbed(s: AdapterState, run: seq<Move>, cfg: AdapterConfig, env: Environment, x: Side)
    requires Legal(s, run, cfg, env)
    decreases run
  {
    && s.Peer(x).agent.watch.armed
    && (run != [] ==>
          && !(run[0].On? && run[0].side == x && Rearms(s.Peer(x), run[0].ev))
          && Undisturbed(Step(s, run[0], cfg), run[1..], cfg, env, x))
  }

  /** Some move of the run calls `open()`. */
  ghost predicate OpensIn(s: AdapterState, run: seq<Move>, cfg: AdapterConfig, env: Environment, x: Side)
    requires Legal(s, run, cfg, env)
    decreases run
  {
    run != [] &&
    (|| (run[0].On? && run[0].side == x && Opens(s.Peer(x), run[0].ev))
     || OpensIn(Step(s, run[0], cfg), run[1..], cfg, env, x))
  }

  lemma LoadCertsLeavesWatch(p: PeerState, k: nat, now: nat, cfg: Config)
    ensures k < |p.agent.sockets| && SocketOpened(p, k, now, cfg).peer.agent.watch.armed ==>
              SocketOpened(p, k, now, cfg).peer.agent.watch == p.agent.watch
    ensures k in p.agent.receives && !p.agent.receives[k].Awaiting?
            && ReceiveResumed(p, k, now, cfg).peer.agent.watch.armed ==>
              ReceiveResumed(p, k, now, cfg).peer.agent.watch == p.agent.watch
  {
  }

  lemma TokenFetchedLeavesWatch(p: PeerState, f: nat, r: Auth.Response, now: nat, cfg: Config)
    requires f in p.auth.fetches && !Opens(p, TokenFetch(f, r))
    requires TokenFetched(p, f, r, now, cfg).peer.agent.watch.armed
    ensures TokenFetched(p, f, r, now, cfg).peer.agent.watch == p.agent.watch
  {
  }

  lemma UndisturbedTurn(p: PeerState, ev: Event, now: nat, cfg: Config)
    requires CanHappen(p, ev, now) && !Rearms(p, ev) && !Opens(p, ev)
    requires TakeTurn(p, ev, now, cfg).peer.agent.watch.armed
    ensures TakeTurn(p, ev, now, cfg).peer.agent.watch == p.agent.watch
  {
    match ev
    case TokenFetch(f, r) => TokenFetchedLeavesWatch(p, f, r, now, cfg);
    case SocketOpen(k) => LoadCertsLeavesWatch(p, k, now, cfg);
    case ResumeReceive(r) => LoadCertsLeavesWatch(p, r, now, cfg);
    case _ =>
  }

  /** The armed watchdog is due by the deadline, which has not passed. */
  ghost predicate ActsBy(p: PeerState, deadline: nat, now: nat, cfg: Config) {
    now <= deadline && p.agent.watch.armedAt + Delay(30_000 + cfg.timeout) <= deadline
  }

  lemma StepKeepsActsBy(
    s: AdapterState, m: Move, cfg: AdapterConfig, env: Environment, x: Side, deadline: nat)
    requires CanMove(s, m) && Allows(env, s, m) && env.Of(x).prompt && AdapterInv(s, cfg)
    requires s.Peer(x).agent.watch.armed && ActsBy(s.Peer(x), deadline, s.now, cfg.Of(x))
    requires Step(s, m, cfg).Peer(x).agent.watch.armed
    requires m.On? && m.side == x ==> !Rearms(s.Peer(x), m.ev) && !Opens(s.Peer(x), m.ev)
    ensures ActsBy(Step(s, m, cfg).Peer(x), deadline, Step(s, m, cfg).now, cfg.Of(x))
  {
    StepLocal(s, m, cfg, x);
    if m.On? && m.side == x {
      UndisturbedTurn(s.Peer(x), m.ev, s.now, cfg.Of(x));
    }
    if m.Tick? {
      var t := s.Peer(x).agent.watch.pingTimeout.value;
      assert PromptUntil(s.Peer(x), s.now + m.ms) && t in s.Peer(x).agent.watch.pings;
    }
  }

  lemma {:induction false} RunActsBy(
    s: AdapterState, run: seq<Move>, cfg: AdapterConfig, env: Environment, x: Side, deadline: nat)
    requires env.Of(x).prompt && AdapterInv(s, cfg) && Legal(s, run, cfg, env) && Undisturbed(s, run, cfg, env, x)
    requires ActsBy(s.Peer(x), deadline, s.now, cfg.Of(x))
    ensures OpensIn(s, run, cfg, env, x) || After(s, run, cfg, env).now <= deadline
    decreases run
  {
    if run != [] && !(run[0].On? && run[0].side == x && Opens(s.Peer(x), run[0].ev)) {
      StepKeepsActsBy(s, run[0], cfg, env, x, deadline);
      StepKeepsInv(s, run[0], cfg);
      RunActsBy(Step(s, run[0], cfg), run[1..], cfg, env, x, deadline);
    }
  }

  /** There is no current socket, or it is closing or closed. */
  ghost predicate Lost(s: Control.AgentState) {
    s.ws.None? || Recovery.Dead(s, s.ws.value)
  }

  /** A lost socket stays lost until `open()` makes a new one. */
  ghost predicate LostOrReplaced(s: Control.AgentState, s': Control.AgentState) {
    |s.sockets| < |s'.sockets| || (|s.sockets| == |s'.sockets| && Lost(s'))
  }

  lemma TokenFetchedWhileLost(p: PeerState, f: nat, r: Auth.Response, now: nat, cfg: Config)
    requires f in p.auth.fetches && Lost(p.agent)
    ensures LostOrReplaced(p.agent, TokenFetched(p, f, r, now, cfg).peer.agent)
    ensures Opens(p, TokenFetch(f, r)) ==> |p.agent.sockets| < |TokenFetched(p, f, r, now, cfg).peer.agent.sockets|
  {
  }

  lemma SocketOpenedWhileLost(p: PeerState, k: nat, now: nat, cfg: Config)
    requires k < |p.agent.sockets| && p.agent.sockets[k].ready.Connecting? && Lost(p.agent)
    ensures LostOrReplaced(p.agent, SocketOpened(p, k, now, cfg).peer.agent)
  {
  }

  lemma ReceiveResumedWhileLost(p: PeerState, r: nat, now: nat, cfg: Config)
    requires r in p.agent.receives && !p.agent.receives[r].Awaiting? && Lost(p.agent)
    ensures LostOrReplaced(p.agent, ReceiveResumed(p, r, now, cfg).peer.agent)
  {
  }

  lemma LostTurn(p: PeerState, ev: Event, now: nat, cfg: Config)
    requires CanHappen(p, ev, now) && Lost(p.agent)
    ensures LostOrReplaced(p.agent, TakeTurn(p, ev, now, cfg).peer.agent)
    ensures Opens(p, ev) ==> |p.agent.sockets| < |TakeTurn(p, ev, now, cfg).peer.agent.sockets|
  {
    match ev
    case TokenFetch(f, r) => TokenFetchedWhileLost(p, f, r, now, cfg);
    case SocketOpen(k) => SocketOpenedWhileLost(p, k, now, cfg);
    case ResumeReceive(r) => ReceiveResumedWhileLost(p, r, now, cfg);
    case _ =>
  }

  lemma TokenFetchedKeepsSockets(p: PeerState, f: nat, r: Auth.Response, now: nat, cfg: Config)
    requires f in p.auth.fetches
    ensures |p.agent.sockets| <= |TokenFetched(p, f, r, now, cfg).peer.agent.sockets|
  {
  }

  lemma SocketsTurn(p: PeerState, ev: Event, now: nat, cfg: Config)
    requires CanHappen(p, ev, now)
    ensures |p.agent.sockets| <= |TakeTurn(p, ev, now, cfg).peer.agent.sockets|
  {
    if ev.TokenFetch? {
      TokenFetchedKeepsSockets(p, ev.fetch, ev.response, now, cfg);
    }
  }

  lemma {:induction false} RunKeepsSockets(
    s: AdapterState, run: seq<Move>, cfg: AdapterConfig, env: Environment, x: Side)
    requires Legal(s, run, cfg, env)
    ensures |s.Peer(x).agent.sockets| <= |After(s, run, cfg, env).Peer(x).agent.sockets|
    decreases run
  {
    if run != [] {
      StepLocal(s, run[0], cfg, x);
      if run[0].On? && run[0].side == x {
        SocketsTurn(s.Peer(x), run[0].ev, s.now, cfg.Of(x));
      }
      RunKeepsSockets(Step(s, run[0], cfg), run[1..], cfg, env, x);
    }
  }

  lemma {:induction false} OpeningReplaces(
    s: AdapterState, run: seq<Move>, cfg: AdapterConfig, env: Environment, x: Side)
    requires Legal(s, run, cfg, env) && OpensIn(s, run, cfg, env, x) && Lost(s.Peer(x).agent)
    ensures |s.Peer(x).agent.sockets| < |After(s, run, cfg, env).Peer(x).agent.sockets|
    decreases run
  {
    var next := Step(s, run[0], cfg);
    StepLocal(s, run[0], cfg, x);
    if run[0].On? && run[0].side == x {
      LostTurn(s.Peer(x), run[0].ev, s.now, cfg.Of(x));
    }
    if |s.Peer(x).agent.sockets| < |next.Peer(x).agent.sockets| {
      RunKeepsSockets(next, run[1..], cfg, env, x);
    } else {
      OpeningReplaces(next, run[1..], cfg, env, x);
    }
  }

  /**
   * The watchdog recovers: with prompt timers, in any continuation longer than one window in which the watchdog stays
   * armed and neither a ping nor a close event re-arms it, `open()` is called again; and if the current socket was
   * lost, a new one takes its place. The value of `shouldReconnect` does not matter, nor does the history.
   */
  lemma WatchdogReopens(
    before: seq<Move>, after: seq<Move>, cfg: AdapterConfig, history: Environment, env: Environment, x: Side)
    requires Legal(INITIAL_ADAPTER, before, cfg, history)
    requires Legal(After(INITIAL_ADAPTER, before, cfg, history), after, cfg, env)
    ensures var s := After(INITIAL_ADAPTER, before, cfg, history);
            var later := After(s, after, cfg, env);
            env.Of(x).prompt && Undisturbed(s, after, cfg, env, x)
            && later.now > s.now + Delay(30_000 + cfg.Of(x).timeout) ==>
              && OpensIn(s, after, cfg, env, x)
              && (Lost(s.Peer(x).agent) ==> |s.Peer(x).agent.sockets| < |later.Peer(x).agent.sockets|)
  {
    InitiallyInv(cfg);
    RunKeepsInv(INITIAL_ADAPTER, before, cfg, history);
    var s := After(INITIAL_ADAPTER, before, cfg, history);
    var later := After(s, after, cfg, env);
    if env.Of(x).prompt && Undisturbed(s, after, cfg, env, x) && later.now > s.now + Delay(30_000 + cfg.Of(x).timeout) {
      RunActsBy(s, after, cfg, env, x, s.now + Delay(30_000 + cfg.Of(x).timeout));
      if Lost(s.Peer(x).agent) {
        OpeningReplaces(s, after, cfg, env, x);
      }
    }
  }

  // ---- How many watchdogs are pending -----------------------------------------------------------------------------

  /** With prompt timers, a pending watchdog is never overdue. */
  ghost predicate WatchAhead(p: PeerState, now: nat, cfg: Config) {
    p.agent.watch.pings != map[] ==> now <= p.agent.watch.armedAt + Delay(30_000 + cfg.timeout)
  }

  lemma TurnKeepsAhead(p: PeerState, ev: Event, now: nat, cfg: Config)
    requires CanHappen(p, ev, now) && Control.WatchInv(p.agent.watch, cfg.timeout, now) && WatchAhead(p, now, cfg)
    ensures WatchAhead(TakeTurn(p, ev, now, cfg).peer, now, cfg)
  {
    WatchTurn(p, ev, now, cfg);
  }

  lemma TickKeepsAhead(p: PeerState, now: nat, later: nat, cfg: Config)
    requires Control.WatchInv(p.agent.watch, cfg.timeout, now) && PromptUntil(p, later)
    ensures WatchAhead(p, later, cfg)
  {
    if p.agent.watch.pings != map[] {
      var t :| t in p.agent.watch.pings;
    }
  }

  lemma StepKeepsAhead(s: AdapterState, m: Move, cfg: AdapterConfig, env: Environment, x: Side)
    requires CanMove(s, m) && Allows(env, s, m) && env.Of(x).prompt && AdapterInv(s, cfg)
             && WatchAhead(s.Peer(x), s.now, cfg.Of(x))
    ensures WatchAhead(Step(s, m, cfg).Peer(x), Step(s, m, cfg).now, cfg.Of(x))
  {
    StepLocal(s, m, cfg, x);
    if m.On? && m.side == x {
      TurnKeepsAhead(s.Peer(x), m.ev, s.now, cfg.Of(x));
    } else if m.Tick? {
      TickKeepsAhead(s.Peer(x), s.now, s.now + m.ms, cfg.Of(x));
    }
  }

  lemma {:induction false} RunKeepsAhead(s: AdapterState, run: seq<Move>, cfg: AdapterConfig, env: Environment, x: Side)
    requires env.Of(x).prompt && AdapterInv(s, cfg) && Legal(s, run, cfg, env)
    requires WatchAhead(s.Peer(x), s.now, cfg.Of(x))
    ensures WatchAhead(After(s, run, cfg, env).Peer(x), After(s, run, cfg, env).now, cfg.Of(x))
    decreases run
  {
    if run != [] {
      StepKeepsAhead(s, run[0], cfg, env, x);
      StepKeepsInv(s, run[0], cfg);
      RunKeepsAhead(Step(s, run[0], cfg), run[1..], cfg, env, x);
    }
  }

  lemma AtMostOnePending(w: Control.Watch, timeout: int, now: nat)
    requires Control.WatchInv(w, timeout, now)
    ensures |w.pings| <= 1 && (w.armed ==> |w.pings| == 1)
  {
    if w.pings != map[] {
      var t :| t in w.pings;
      assert w.pings.Keys == {t};
    }
  }

  /**
   * At most one watchdog timer is ever pending, and exactly one between `open()` and `close()`; with prompt timers it
   * is never overdue.
   */
  lemma OneWatchdog(run: seq<Move>, cfg: AdapterConfig, env: Environment, x: Side)
    requires Legal(INITIAL_ADAPTER, run, cfg, env)
    ensures var s := After(INITIAL_ADAPTER, run, cfg, env);
            var w := s.Peer(x).agent.watch;
            && |w.pings| <= 1
            && (w.armed ==> |w.pings| == 1)
            && (env.Of(x).prompt && w.armed ==> s.now <= w.armedAt + Delay(30_000 + cfg.Of(x).timeout))
  {
    InitiallyInv(cfg);
    RunKeepsInv(INITIAL_ADAPTER, run, cfg, env);
    var s := After(INITIAL_ADAPTER, run, cfg, env);
    AtMostOnePending(s.Peer(x).agent.watch, cfg.Of(x).timeout, s.now);
    if env.Of(x).prompt {
      RunKeepsAhead(INITIAL_ADAPTER, run, cfg, env, x);
    }
  }
}
