/** Legal runs in which the control agent does what one would not expect of it. */
module WatchdogRuns {
  import opened Prelude
  import opened Codec
  import opened Protocol
  import opened Peers
  import opened Adapter
  import opened Scenarios
  import opened Beginnings
  import Auth
  import Http
  import Control
  import Invariants
  import Watchdog

  // ---- A text that is not JSON, long after `receive()` timed out --------------------------------------------------

  /**
   * The `receive()` of the failed attempt timed out; its listener ends the process when the hub sends a text that is
   * not JSON.
   */
  lemma StaleListenerCrashes()
    ensures exists p :: Reaches(INITIAL_ADAPTER, ALL, p, 5000) && p.agent.receives == map[]
                        && CanHappen(p, SocketMessage(0, None), 5000)
                        && TakeTurn(p, SocketMessage(0, None), 5000, DEFAULTS).crashed
  {
    ReachesFailed(ALL);
    var p := FailedFirst();
    assert 0 in p.agent.listeners;
    assert Reaches(INITIAL_ADAPTER, ALL, p, 5000);
  }

  // ---- A ping between `close()` and the next `open()` -------------------------------------------------------------

  const LATE_PING := Control.Watch(Some(1), map[1 := 40_000], 2, false, 5000)

  const REOPENING := CleanedUp(LATE_PING).(
    ws := Some(1),
    sockets := [Control.Socket(Control.Closed, None), Control.Socket(Control.Connecting, Some(Control.Watchdog))],
    watch := Control.Watch(Some(2), map[2 := 75_000], 3, true, 40_000))

  const RELOADING := REOPENING.(
    sockets := [Control.Socket(Control.Closed, None), Control.Socket(Control.Open, None)],
    listeners := {0, 1},
    receives := map[2 := Control.Awaiting(1, 45_000, Control.Watchdog)],
    next := 3,
    sent := [ReadConfiguration(), ReadConfiguration()])

  lemma ReopensAt40s(s: Control.AgentState)
    requires s == CleanedUp(LATE_PING)
    ensures Control.PingTimedOut(s, 1, 40_000, 5000) == REOPENING
    ensures !Control.IsOpen(s)
  {
    assert LATE_PING.pings - {1} == map[];
  }

  lemma ReopenedLoads(s: Control.AgentState)
    requires s == REOPENING
    ensures Control.LoadingCerts(Control.SocketOpened(s, 1), Control.Watchdog, 40_000, 5000) == RELOADING
    ensures Control.IsOpen(Control.SocketOpened(s, 1))
  {
    assert s.sent + [ReadConfiguration()] == RELOADING.sent;
  }

  const LATE_PINGS := ALL.(a := GOOD.(noLatePing := false))

  lemma ReachesPinged()
    ensures Reaches(INITIAL_ADAPTER, LATE_PINGS, FailedFirst().(agent := FAILED.(watch := LATE_PING)), 5000)
  {
    ReachesFailed(LATE_PINGS);
    var pinged := FailedFirst().(agent := FAILED.(watch := LATE_PING));
    assert Control.PingReceived(FAILED, 5000, 5000) == pinged.agent;
    Then(INITIAL_ADAPTER, LATE_PINGS, FailedFirst(), 5000, SocketPing(0), Quiet(pinged));
  }

  lemma ReachesRetrying()
    ensures Reaches(
      INITIAL_ADAPTER, LATE_PINGS, FailedFirst().(agent := CleanedUp(LATE_PING), own := RETRYING), 40_000)
  {
    ReachesPinged();
    CleansUp(INITIAL_ADAPTER, LATE_PINGS, FailedFirst().(agent := FAILED.(watch := LATE_PING)));
    var retrying := FailedFirst().(agent := CleanedUp(LATE_PING), own := RETRYING);
    assert retrying.auth.timers == map[];
    Later(INITIAL_ADAPTER, LATE_PINGS, retrying, 5000, 35_000);
  }

  /** At 40 s the watchdog, re-armed by the late ping, has opened a second socket, and its `loadCerts` waits. */
  function Reloading(): PeerState {
    FailedFirst().(agent := RELOADING, own := RETRYING)
  }

  lemma ReachesReloading()
    ensures Reaches(INITIAL_ADAPTER, LATE_PINGS, Reloading(), 40_000)
  {
    ReachesRetrying();
    var retrying := FailedFirst().(agent := CleanedUp(LATE_PING), own := RETRYING);
    ReopensAt40s(retrying.agent);
    var reopening := retrying.(agent := REOPENING);
    Then(INITIAL_ADAPTER, LATE_PINGS, retrying, 40_000, PingTimer(1), Quiet(reopening));
    ReopenedLoads(reopening.agent);
    Then(INITIAL_ADAPTER, LATE_PINGS, reopening, 40_000, SocketOpen(1), Quiet(Reloading()));
  }

  const RELOADED := RELOADING.(listeners := {0}, receives := map[])

  lemma ReloadReceives(s: Control.AgentState, msg: Value)
    requires s == RELOADING && IsCertsPayload(msg)
    ensures var arrived := Control.MessageReceived(s, 1, msg);
            && arrived.receives == map[2 := Control.Received(msg, Control.Watchdog)]
            && Control.ReceiveResumed(arrived, 2) == RELOADED
  {
    assert Control.ReceiveResumed(Control.MessageReceived(s, 1, msg), 2).receives == map[];
  }

  lemma ReachesReloaded(msg: Value)
    requires IsCertsPayload(msg)
    ensures Reaches(INITIAL_ADAPTER, LATE_PINGS,
              Reloading().(agent := RELOADED, http := LoadedHttp(ExtractCerts(msg), 40_000)), 40_000)
  {
    ReachesReloading();
    var p := Reloading();
    ReloadReceives(p.agent, msg);
    LoadsHttp(p.http, msg, 40_000);
    CertsArrive(INITIAL_ADAPTER, LATE_PINGS, p, 40_000, 1, msg);
    CertsLoad(INITIAL_ADAPTER, LATE_PINGS, AfterCerts(p, 1, msg, 40_000), 40_000, 2, msg);
    assert AfterLoading(AfterCerts(p, 1, msg, 40_000), 2, msg, 40_000)
        == p.(agent := RELOADED, http := LoadedHttp(ExtractCerts(msg), 40_000));
  }

  /** The retry comes at 65 s, and its token request is in flight. */
  function Retried(c: Value): PeerState {
    var p := FailedFirst();
    p.(auth := Auth.Begin(p.auth, 65_000),
    agent := RELOADED,
    http := SettledHttp(c, 40_000),
    own := RETRYING.(retries := map[]))
  }

  /** From 45 s on the first agent is destroyed and the retry pending. */
  function RetryDue(c: Value): PeerState {
    Reloading().(agent := RELOADED, http := SettledHttp(c, 40_000))
  }

  lemma ReachesSettled(msg: Value)
    requires IsCertsPayload(msg)
    ensures Reaches(INITIAL_ADAPTER, LATE_PINGS, RetryDue(ExtractCerts(msg)), 45_000)
  {
    ReachesReloaded(msg);
    var p := Reloading().(agent := RELOADED, http := LoadedHttp(ExtractCerts(msg), 40_000));
    assert p.auth.timers == map[];
    FirstAgentDies(INITIAL_ADAPTER, LATE_PINGS, p, ExtractCerts(msg), 40_000);
  }

  lemma RetryIsPrompt(c: Value)
    ensures NoneResuming(RetryDue(c)) && PromptUntil(RetryDue(c), 65_000)
  {
    assert RetryDue(c).auth.timers == map[];
  }

  lemma ReachesRetryDue(msg: Value)
    requires IsCertsPayload(msg)
    ensures Reaches(INITIAL_ADAPTER, LATE_PINGS, RetryDue(ExtractCerts(msg)), 65_000)
  {
    ReachesSettled(msg);
    var p := RetryDue(ExtractCerts(msg));
    RetryIsPrompt(ExtractCerts(msg));
    Later(INITIAL_ADAPTER, LATE_PINGS, p, 45_000, 20_000);
  }

  lemma ReachesRetried(msg: Value)
    requires IsCertsPayload(msg)
    ensures Reaches(INITIAL_ADAPTER, LATE_PINGS, Retried(ExtractCerts(msg)), 65_000)
  {
    ReachesRetryDue(msg);
    var p, retried := RetryDue(ExtractCerts(msg)), Retried(ExtractCerts(msg));
    assert p.own.retries - {0} == map[];
    assert RetryFires(p, 0, 65_000) == retried;
    Then(INITIAL_ADAPTER, LATE_PINGS, p, 65_000, RetryTimer(0), Quiet(retried));
  }

  /**
   * One ping after the `close()` of a failed attempt re-arms the watchdog. The socket it opens is open when the retry
   * has got its token, so that `open()` is rejected and the attempt fails again.
   */
  lemma LatePingRejectsRetry(msg: Value, expiresIn: nat)
    requires IsCertsPayload(msg) && expiresIn >= 31
    ensures exists p, f ::
              && Reaches(INITIAL_ADAPTER, LATE_PINGS, p, 65_000)
              && CanHappen(p, TokenFetch(f, Auth.Body("t", expiresIn, 65_000)), 65_000)
              && p.own.phase.Running? && p.auth.fetches[f].awaited && Control.IsOpen(p.agent)
              && Invariants.FailureOf(p, TokenFetch(f, Auth.Body("t", expiresIn, 65_000))) == Some(false)
  {
    var p := Retried(ExtractCerts(msg));
    ReachesRetried(msg);
    var body := Auth.Body("t", expiresIn, 65_000);
    assert 2 in p.auth.fetches && p.auth.fetches[2].awaited;
    assert Auth.GetOidcToken(body) == Auth.Token("t", expiresIn, 65_000);
    assert Control.IsOpen(p.agent);
    assert Invariants.FailureOf(p, TokenFetch(2, body)) == Some(false);
  }

  // ---- A superseded socket keeps the watchdog quiet ---------------------------------------------------------------

  const BOTH_LOADING := SECOND.(
    sockets := [Control.Socket(Control.Open, None), Control.Socket(Control.Open, None)],
    listeners := {1},
    receives := map[0 := Control.Awaiting(1, 40_000, Control.Watchdog),
      1 := Control.Awaiting(1, 40_000, Control.Starter)],
    next := 2,
    sent := [ReadConfiguration(), ReadConfiguration()])

  /** The second socket opens first, so that the attempt that waited for the first one loads from the second as well. */
  lemma BothLoad(s: Control.AgentState)
    requires s == SECOND
    ensures var one := Control.LoadingCerts(Control.SocketOpened(s, 1), Control.Watchdog, 35_000, 5000);
            && Control.IsOpen(Control.SocketOpened(s, 1))
            && |one.sockets| == 2 && one.sockets[0] == Control.Socket(Control.Connecting, Some(Control.Starter))
            && Control.IsOpen(Control.SocketOpened(one, 0))
            && Control.LoadingCerts(Control.SocketOpened(one, 0), Control.Starter, 35_000, 5000) == BOTH_LOADING
  {
    var one := Control.LoadingCerts(Control.SocketOpened(s, 1), Control.Watchdog, 35_000, 5000);
    assert one.sent == [ReadConfiguration()];
    assert one.receives == map[0 := Control.Awaiting(1, 40_000, Control.Watchdog)];
    assert one.sent + [ReadConfiguration()] == BOTH_LOADING.sent;
  }

  lemma ReachesSecond()
    ensures Reaches(INITIAL_ADAPTER, ALL, Refreshing(SECOND), 35_000)
  {
    ReachesRefreshing();
    var p := Refreshing(CONNECTING);
    Later(INITIAL_ADAPTER, ALL, p, 30_000, 5000);
    SecondSocket(p.agent);
    Then(INITIAL_ADAPTER, ALL, p, 35_000, PingTimer(0), Quiet(Refreshing(SECOND)));
  }

  lemma ReachesBothLoading()
    ensures Reaches(INITIAL_ADAPTER, ALL, Refreshing(BOTH_LOADING), 35_000)
  {
    ReachesSecond();
    var second := Refreshing(SECOND);
    BothLoad(second.agent);
    var one := second.(
      agent := Control.LoadingCerts(Control.SocketOpened(second.agent, 1), Control.Watchdog, 35_000, 5000));
    Then(INITIAL_ADAPTER, ALL, second, 35_000, SocketOpen(1), Quiet(one));
    Then(INITIAL_ADAPTER, ALL, one, 35_000, SocketOpen(0), Quiet(Refreshing(BOTH_LOADING)));
  }

  const BOTH_OPEN := BOTH_LOADING.(listeners := {}, receives := map[])

  function ThriceHttp(c: Value): Http.HttpState {
    LoadedHttp(c, 35_000).(
      agent := Some(2), handle := Some(1), timers := map[0 := 40_000, 1 := 40_000], created := [c, c, c])
  }

  lemma LoadsThrice(h: Http.HttpState, msg: Value)
    requires IsCertsPayload(msg) && h == LoadedHttp(ExtractCerts(msg), 35_000)
    ensures Http.OnServerState(h, CertsEvent(msg), 35_000) == ThriceHttp(ExtractCerts(msg))
  {
  }

  lemma BothReceive(s: Control.AgentState, msg: Value)
    requires s == BOTH_LOADING && IsCertsPayload(msg)
    ensures var arrived := Control.MessageReceived(s, 1, msg);
            && arrived.receives
               == map[0 := Control.Received(msg, Control.Watchdog), 1 := Control.Received(msg, Control.Starter)]
            && Control.ReceiveResumed(Control.ReceiveResumed(arrived, 0), 1) == BOTH_OPEN
  {
    var arrived := Control.MessageReceived(s, 1, msg);
    assert Control.ReceiveResumed(Control.ReceiveResumed(arrived, 0), 1).receives == map[];
  }

  const READY_AT_35S := OwnState(true, None, map[], Some(0), map[0 := 1_835_000], true, true, Running, 1)

  /** Ready, with two open sockets. */
  function TwoSockets(agent: Control.AgentState, http: Http.HttpState): PeerState {
    Refreshing(agent).(http := http, own := READY_AT_35S)
  }

  lemma ReachesTwoSockets(msg: Value)
    requires IsCertsPayload(msg)
    ensures Reaches(INITIAL_ADAPTER, ALL, TwoSockets(BOTH_OPEN, ThriceHttp(ExtractCerts(msg))), 35_000)
  {
    ReachesBothLoading();
    var p := Refreshing(BOTH_LOADING);
    BothReceive(p.agent, msg);
    LoadsHttp(p.http, msg, 35_000);
    LoadsThrice(LoadedHttp(ExtractCerts(msg), 35_000), msg);
    CertsArrive(INITIAL_ADAPTER, ALL, p, 35_000, 1, msg);
    var arrived := AfterCerts(p, 1, msg, 35_000);
    CertsLoad(INITIAL_ADAPTER, ALL, arrived, 35_000, 0, msg);
    var loaded := AfterLoading(arrived, 0, msg, 35_000);
    CertsLoad(INITIAL_ADAPTER, ALL, loaded, 35_000, 1, msg);
    assert AfterLoading(loaded, 1, msg, 35_000) == TwoSockets(BOTH_OPEN, ThriceHttp(ExtractCerts(msg)));
  }

  const LOST := BOTH_OPEN.(
    sockets := [Control.Socket(Control.Open, None), Control.Socket(Control.Closed, None)],
    watch := Control.Watch(Some(2), map[2 := 70_000], 3, true, 35_000))

  const PINGED := LOST.(watch := Control.Watch(Some(3), map[3 := 100_000], 4, true, 65_000))

  lemma CurrentCloses(s: Control.AgentState)
    requires s == BOTH_OPEN
    ensures Control.SocketClosed(s, 1, 35_000, 5000) == LOST
  {
    assert s.watch.pings - {1} == map[];
    assert Control.SocketClosed(s, 1, 35_000, 5000).closes == map[];
  }

  lemma SupersededPings(s: Control.AgentState)
    requires s == LOST
    ensures Control.PingReceived(s, 65_000, 5000) == PINGED
  {
    assert s.watch.pings - {2} == map[];
  }

  lemma ReachesLost(msg: Value)
    requires IsCertsPayload(msg)
    ensures Reaches(INITIAL_ADAPTER, ALL, TwoSockets(LOST, ThriceHttp(ExtractCerts(msg))), 35_000)
  {
    ReachesTwoSockets(msg);
    var p := TwoSockets(BOTH_OPEN, ThriceHttp(ExtractCerts(msg)));
    CurrentCloses(p.agent);
    Then(INITIAL_ADAPTER, ALL, p, 35_000, SocketClose(1), Quiet(TwoSockets(LOST, ThriceHttp(ExtractCerts(msg)))));
  }

  function ShutHttp(c: Value): Http.HttpState {
    ThriceHttp(c).(handle := None, timers := map[], destroyed := [0, 1])
  }

  lemma BothShut(c: Value)
    ensures var one := Http.ShutdownFires(ThriceHttp(c), 0);
            && Http.MayFire(ThriceHttp(c), 0, 40_000) && Http.MayFire(one, 1, 40_000)
            && Http.ShutdownFires(one, 1) == ShutHttp(c)
  {
    var one := Http.ShutdownFires(ThriceHttp(c), 0);
    assert one.timers == map[1 := 40_000];
    assert Http.ShutdownFires(one, 1).timers == map[];
  }

  lemma BothAgentsDie(s: AdapterState, c: Value)
    requires Reaches(s, ALL, TwoSockets(LOST, ThriceHttp(c)), 40_000)
    ensures Reaches(s, ALL, TwoSockets(LOST, ShutHttp(c)), 40_000)
  {
    var p, both := TwoSockets(LOST, ThriceHttp(c)), TwoSockets(LOST, ShutHttp(c));
    var one := p.(http := Http.ShutdownFires(p.http, 0));
    BothShut(c);
    Then(s, ALL, p, 40_000, ShutdownTimer(0), Quiet(one));
    Then(s, ALL, one, 40_000, ShutdownTimer(1), Quiet(both));
  }

  lemma LostFor5s(s: AdapterState, c: Value)
    requires IsScene(s, TwoSockets(LOST, ThriceHttp(c)), 35_000)
    ensures Reaches(s, ALL, TwoSockets(LOST, ShutHttp(c)), 40_000)
  {
    var p := TwoSockets(LOST, ThriceHttp(c));
    NoMoves(s, ALL, p, 35_000);
    assert p.auth.timers == map[];
    Later(s, ALL, p, 35_000, 5000);
    BothAgentsDie(s, c);
  }

  lemma LostWaits(s: AdapterState, c: Value, agent: Control.AgentState, now: nat, ms: nat)
    requires Reaches(s, ALL, TwoSockets(agent, ShutHttp(c)), now)
    requires agent.receives == map[] && agent.closes == map[] && now + ms <= 1_835_000
    requires forall t :: t in agent.watch.pings ==> now + ms <= agent.watch.pings[t]
    ensures Reaches(s, ALL, TwoSockets(agent, ShutHttp(c)), now + ms)
  {
    Later(s, ALL, TwoSockets(agent, ShutHttp(c)), now, ms);
  }

  lemma PingIn30s(s: AdapterState, c: Value)
    requires Reaches(s, ALL, TwoSockets(LOST, ShutHttp(c)), 65_000)
    ensures Reaches(s, ALL, TwoSockets(PINGED, ShutHttp(c)), 65_000)
  {
    SupersededPings(LOST);
    var p := TwoSockets(LOST, ShutHttp(c));
    Then(s, ALL, p, 65_000, SocketPing(0), Quiet(TwoSockets(PINGED, ShutHttp(c))));
  }

  lemma LostFor40s(s: AdapterState, c: Value)
    requires IsScene(s, TwoSockets(LOST, ThriceHttp(c)), 35_000)
    ensures Reaches(s, ALL, TwoSockets(PINGED, ShutHttp(c)), 75_000)
  {
    LostFor5s(s, c);
    LostWaits(s, c, LOST, 40_000, 25_000);
    PingIn30s(s, c);
    LostWaits(s, c, PINGED, 65_000, 10_000);
  }

  /**
   * The first socket opened after the watchdog had replaced it, so that two sockets are open. When the current one
   * closes, a ping of the superseded one keeps the watchdog quiet: 40 s later, with a window of 35 s, the lost socket
   * is not replaced.
   */
  lemma SupersededKeepsQuiet(msg: Value)
    requires IsCertsPayload(msg)
    ensures exists p, q ::
              && Reaches(INITIAL_ADAPTER, ALL, p, 35_000)
              && (forall s :: IsScene(s, p, 35_000) ==> Reaches(s, ALL, q, 75_000))
              && Watchdog.Lost(p.agent) && p.agent.watch.armed && 75_000 > 35_000 + Delay(30_000 + DEFAULTS.timeout)
              && q.agent.sockets == p.agent.sockets && q.agent.watch.armed && q.agent.shouldReconnect
  {
    var c := ExtractCerts(msg);
    var p, q := TwoSockets(LOST, ThriceHttp(c)), TwoSockets(PINGED, ShutHttp(c));
    ReachesLost(msg);
    forall s | IsScene(s, p, 35_000) ensures Reaches(s, ALL, q, 75_000) {
      LostFor40s(s, c);
    }
    assert Watchdog.Lost(p.agent);
  }
}
