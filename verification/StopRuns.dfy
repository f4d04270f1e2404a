/**
 * What `stop` leaves behind when it is not called at a quiet point, or when the environment does not keep to the
 * assumptions: every condition of `Quiescence.QuiescentAfterStop` is needed. All runs are legal and break only the
 * condition they are about.
 */
module StopRuns {
  import opened Prelude
  import opened Codec
  import opened Protocol
  import opened Ping
  import opened Peers
  import opened Adapter
  import opened Scenarios
  import opened Beginnings
  import Auth
  import Http
  import Control
  import Quiescence

  // ---- `stop` does not wait for what is in flight -----------------------------------------------------------------

  const STOPPED_LOADING := LOADING.(
    sockets := [Control.Socket(Control.Closing, None)],
    shouldReconnect := false,
    watch := Control.Watch(Some(0), map[], 1, false, 0),
    closes := map[1 := Control.Close(Some(0), 5000, Control.ForStop, false)],
    next := 2)

  lemma LoadingStops(s: Control.AgentState)
    requires s == LOADING
    ensures Control.ClosingFor(s, Control.ForStop, 0) == STOPPED_LOADING
  {
  }

  lemma LoadingOutlivesStop(p: PeerState, msg: Value)
    requires p == Fetched(30_000, 3600, LOADING) && IsCertsPayload(msg)
    ensures exists q :: StopsInto(ALL, p, 0, q, 0) && q.own.phase.Stopped? && q.own.jwsLoops != map[]
  {
    ReachesLoading(ALL, 30_000, 3600);
    var stopping := StopBegun(p, 0);
    LoadingStops(p.agent);
    var arrived := AfterCerts(stopping, 0, msg, 0);
    assert arrived.agent.receives == map[0 := Control.Received(msg, Control.Starter)];
    var ready := AfterLoading(arrived, 0, msg, 0);
    var closed := ready.(agent := Control.SocketClosed(ready.agent, 0, 0, 5000));
    var q := StopEnded(Peers.CloseResumed(closed, 1, 0, DEFAULTS));
    forall s | IsScene(s, stopping, 0) ensures Reaches(s, ALL, q, 0) {
      NoMoves(s, ALL, stopping, 0);
      CertsArrive(s, ALL, stopping, 0, 0, msg);
      CertsLoad(s, ALL, arrived, 0, 0, msg);
      StopCompletes(s, ALL, ready, 0, 0, 1);
    }
    assert 0 in q.own.jwsLoops;
    assert StopsInto(ALL, p, 0, q, 0);
  }

  /**
   * A start attempt that waits for its certificates when the peer is stopped still becomes ready, if they come before
   * the socket closes, and its JWS loop goes on after `stop`.
   */
  lemma StopMissesAttempt(msg: Value)
    requires IsCertsPayload(msg)
    ensures exists p, q ::
              && StopsInto(ALL, p, 0, q, 0) && q.own.phase.Stopped? && q.own.jwsLoops != map[]
              && p.auth.fetches == map[] && p.agent.closes == map[] && Quiescence.OnlyCurrentConnecting(p.agent)
              && Auth.AllStoppable(p.auth) && Http.SettledAt(p.http, 0)
  {
    var p := Fetched(30_000, 3600, LOADING);
    LoadingOutlivesStop(p, msg);
    assert Auth.AllStoppable(p.auth) && Http.SettledAt(p.http, 0);
  }

  /** A clean-up that is under way when the peer is stopped still schedules a retry. */
  lemma StopMissesCleanUp()
    ensures exists p, q ::
              && StopsInto(ALL, p, 5000, q, 5000) && q.own.phase.Stopped? && q.own.retries != map[]
              && p.auth.fetches == map[] && p.agent.receives == map[] && Quiescence.OnlyCurrentConnecting(p.agent)
              && Auth.AllStoppable(p.auth) && Http.SettledAt(p.http, 5000)
  {
    var p := FailedFirst();
    ReachesFailed(ALL);
    var stopping := StopBegun(p, 5000);
    assert stopping.agent.closes
        == FAILED.closes[2 := Control.Close(Some(0), 10_000, Control.ForStop, false)];
    var q := AfterBoth(stopping, 5000, 0, 1, 2);
    forall s | IsScene(s, stopping, 5000) ensures Reaches(s, ALL, q, 5000) {
      NoMoves(s, ALL, stopping, 5000);
      BothComplete(s, ALL, stopping, 5000, 0, 1, 2);
    }
    RetryOutlivesStop(stopping, 5000, 0, 1, 2);
    assert StopsInto(ALL, p, 5000, q, 5000);
  }

  const BEGUN_STOPPED := Control.INITIAL_AGENT.(
    shouldReconnect := false, closes := map[0 := Control.Close(None, 5000, Control.ForStop, false)], next := 1)

  const BEGUN_OPENED := BEGUN_STOPPED.(
    ws := Some(0), sockets := CONNECTING.sockets, watch := CONNECTING.watch)

  lemma BegunStops(s: Control.AgentState)
    requires s == Control.INITIAL_AGENT
    ensures Control.ClosingFor(s, Control.ForStop, 0) == BEGUN_STOPPED
    ensures Control.Opened(BEGUN_STOPPED, Control.Starter, 0, 5000) == BEGUN_OPENED
  {
    assert s.closes[0 := Control.Close(None, 5000, Control.ForStop, false)] == BEGUN_STOPPED.closes;
    assert s.sockets + CONNECTING.sockets == CONNECTING.sockets;
  }

  const BEGUN_OWN := INITIAL_PEER.own.(started := true, jwsListeners := false, phase := ClosingAgent)

  lemma BegunIsStopped()
    ensures StopBegun(BEGUN, 0) == BEGUN.(agent := BEGUN_STOPPED, own := BEGUN_OWN)
  {
    BegunStops(BEGUN.agent);
    assert StopBegun(BEGUN, 0).own == BEGUN_OWN;
  }

  lemma StoppedFetches(s: AdapterState)
    requires IsScene(s, BEGUN.(agent := BEGUN_STOPPED, own := BEGUN_OWN), 0)
    ensures Reaches(s, ALL, Fetched(30_000, 3600, BEGUN_OPENED).(own := BEGUN_OWN), 0)
  {
    var p := BEGUN.(agent := BEGUN_STOPPED, own := BEGUN_OWN);
    NoMoves(s, ALL, p, 0);
    FirstAuthState(30_000, 3600);
    BegunStops(Control.INITIAL_AGENT);
    TokenComes(s, ALL, p, 0, 0, 3600);
    var connecting := Fetched(30_000, 3600, BEGUN_OPENED).(own := BEGUN_OWN);
    assert AfterToken(p, 0, 3600, 0) == connecting;
  }

  lemma StoppedWaits(s: AdapterState)
    requires Reaches(s, ALL, Fetched(30_000, 3600, BEGUN_OPENED).(own := BEGUN_OWN), 0)
    ensures Reaches(s, ALL, Fetched(30_000, 3600, BEGUN_OPENED).(own := BEGUN_OWN), 5000)
  {
    Later(s, ALL, Fetched(30_000, 3600, BEGUN_OPENED).(own := BEGUN_OWN), 0, 5000);
  }

  /** A token request in flight when the peer is stopped schedules the next refresh after `stop`. */
  lemma StopMissesFetch()
    ensures exists p, q ::
              && StopsInto(ALL, p, 0, q, 5000) && q.own.phase.Stopped? && q.auth.timers != map[]
              && p.agent.receives == map[] && p.agent.closes == map[] && Quiescence.OnlyCurrentConnecting(p.agent)
              && Auth.AllStoppable(p.auth) && Http.SettledAt(p.http, 0)
  {
    ReachesFetched(ALL, 30_000, 3600);
    BegunIsStopped();
    var connecting := Fetched(30_000, 3600, BEGUN_OPENED).(own := BEGUN_OWN);
    var settled := connecting.(agent := Control.CloseTimedOut(connecting.agent, 0));
    var q := StopEnded(Peers.CloseResumed(settled, 0, 5000, DEFAULTS));
    forall s | IsScene(s, StopBegun(BEGUN, 0), 0) ensures Reaches(s, ALL, q, 5000) {
      StoppedFetches(s);
      StoppedWaits(s);
      Then(s, ALL, connecting, 5000, CloseTimer(0), Quiet(settled));
      StopFinishes(s, ALL, settled, 5000, 0);
    }
    assert 1 in q.auth.timers;
    assert StopsInto(ALL, BEGUN, 0, q, 5000);
  }

  // ---- Certificates that come too close to each other or to `stop` ------------------------------------------------

  const CONNECTED := LOADING.(listeners := {}, receives := map[])

  const READY := OwnState(true, None, map[], Some(0), map[0 := 1_800_000], true, true, Running, 1)

  function ReadyPeer(http: Http.HttpState): PeerState {
    Fetched(30_000, 3600, CONNECTED).(http := http, own := READY)
  }

  lemma LoadingReceives(s: Control.AgentState, msg: Value)
    requires s == LOADING && IsCertsPayload(msg)
    ensures var arrived := Control.MessageReceived(s, 0, msg);
            && arrived.receives == map[0 := Control.Received(msg, Control.Starter)]
            && Control.ReceiveResumed(arrived, 0) == CONNECTED
  {
    assert Control.ReceiveResumed(Control.MessageReceived(s, 0, msg), 0).receives == map[];
  }

  lemma ReachesReady(env: Environment, msg: Value)
    requires IsCertsPayload(msg)
    ensures Reaches(INITIAL_ADAPTER, env, ReadyPeer(LoadedHttp(ExtractCerts(msg), 0)), 0)
  {
    ReachesLoading(env, 30_000, 3600);
    var p := Fetched(30_000, 3600, LOADING);
    CertsArrive(INITIAL_ADAPTER, env, p, 0, 0, msg);
    LoadingReceives(p.agent, msg);
    LoadsHttp(p.http, msg, 0);
    CertsLoad(INITIAL_ADAPTER, env, AfterCerts(p, 0, msg, 0), 0, 0, msg);
    assert AfterLoading(AfterCerts(p, 0, msg, 0), 0, msg, 0) == ReadyPeer(LoadedHttp(ExtractCerts(msg), 0));
  }

  lemma ReadyIsPrompt(http: Http.HttpState, until: nat)
    requires until <= 30_000 && forall a :: a in http.timers ==> until <= http.timers[a]
    ensures NoneResuming(ReadyPeer(http)) && PromptUntil(ReadyPeer(http), until)
  {
  }

  lemma ReadyWaits(s: AdapterState, env: Environment, http: Http.HttpState, now: nat, ms: nat)
    requires Reaches(s, env, ReadyPeer(http), now) && now + ms <= 30_000
    requires forall a :: a in http.timers ==> now + ms <= http.timers[a]
    ensures Reaches(s, env, ReadyPeer(http), now + ms)
  {
    ReadyIsPrompt(http, now + ms);
    Later(s, env, ReadyPeer(http), now, ms);
  }

  const UNSPACED := ALL.(a := GOOD.(spacedCerts := false))

  function OverlappingHttp(c: Value): Http.HttpState {
    LoadedHttp(c, 0).(
      agent := Some(2), handle := Some(1), timers := map[0 := 5000, 1 := 6000], created := [c, c, c],
      lastRotation := Some(1000))
  }

  function ForgottenHttp(c: Value): Http.HttpState {
    OverlappingHttp(c).(handle := None, timers := map[1 := 6000], destroyed := [0])
  }

  lemma ReachesOverlap(msg: Value)
    requires IsCertsPayload(msg)
    ensures Reaches(INITIAL_ADAPTER, UNSPACED, ReadyPeer(OverlappingHttp(ExtractCerts(msg))), 1000)
  {
    var c := ExtractCerts(msg);
    ReachesReady(UNSPACED, msg);
    ReadyWaits(INITIAL_ADAPTER, UNSPACED, LoadedHttp(c, 0), 0, 1000);
    var p := ReadyPeer(LoadedHttp(c, 0));
    CertsArrive(INITIAL_ADAPTER, UNSPACED, p, 1000, 0, msg);
    assert AfterCerts(p, 0, msg, 1000).agent == CONNECTED;
    assert AfterCerts(p, 0, msg, 1000).http == OverlappingHttp(c);
  }

  lemma OverlapForgets(c: Value)
    ensures Http.MayFire(OverlappingHttp(c), 0, 5000)
    ensures Http.ShutdownFires(OverlappingHttp(c), 0) == ForgottenHttp(c)
  {
  }

  lemma ReachesForgotten(msg: Value)
    requires IsCertsPayload(msg)
    ensures Reaches(INITIAL_ADAPTER, UNSPACED, ReadyPeer(ForgottenHttp(ExtractCerts(msg))), 5000)
  {
    var c := ExtractCerts(msg);
    ReachesOverlap(msg);
    ReadyWaits(INITIAL_ADAPTER, UNSPACED, OverlappingHttp(c), 1000, 4000);
    var p := ReadyPeer(OverlappingHttp(c));
    OverlapForgets(c);
    Then(INITIAL_ADAPTER, UNSPACED, p, 5000, ShutdownTimer(0), Quiet(ReadyPeer(ForgottenHttp(c))));
  }

  /** The agent of a ready peer from `stop()` on. */
  function ReadyStopped(now: nat): Control.AgentState {
    CONNECTED.(
      sockets := [Control.Socket(Control.Closing, None)],
      shouldReconnect := false,
      watch := Control.Watch(Some(0), map[], 1, false, 0),
      closes := map[1 := Control.Close(Some(0), now + 5000, Control.ForStop, false)],
      next := 2)
  }

  lemma ReadyStops(s: Control.AgentState, now: nat)
    requires s == CONNECTED
    ensures Control.ClosingFor(s, Control.ForStop, now) == ReadyStopped(now)
  {
    assert Clear(s.watch.pings, s.watch.pingTimeout) == map[];
  }

  /** The shutdown timer of the first agent forgets the handle of the second one, whose destruction outlives `stop`. */
  lemma OverlapOutlivesStop(msg: Value)
    requires IsCertsPayload(msg)
    ensures exists p, q ::
              StopsInto(ALL, p, 5000, q, 5000) && Quiescence.AtRest(p) && Auth.AllStoppable(p.auth)
              && q.own.phase.Stopped? && q.http.timers != map[]
  {
    var p := ReadyPeer(ForgottenHttp(ExtractCerts(msg)));
    ReachesForgotten(msg);
    var stopping := StopBegun(p, 5000);
    ReadyStops(p.agent, 5000);
    var closed := stopping.(agent := Control.SocketClosed(stopping.agent, 0, 5000, 5000));
    var q := StopEnded(Peers.CloseResumed(closed, 1, 5000, DEFAULTS));
    forall s | IsScene(s, stopping, 5000) ensures Reaches(s, ALL, q, 5000) {
      NoMoves(s, ALL, stopping, 5000);
      StopCompletes(s, ALL, stopping, 5000, 0, 1);
    }
    assert 1 in q.http.timers;
    assert StopsInto(ALL, p, 5000, q, 5000);
  }

  // ---- A late ping, late certificates -----------------------------------------------------------------------------

  lemma ReachesRest(msg: Value)
    requires IsCertsPayload(msg)
    ensures Reaches(INITIAL_ADAPTER, ALL, ReadyPeer(SettledHttp(ExtractCerts(msg), 0)), 5001)
  {
    var c := ExtractCerts(msg);
    ReachesReady(ALL, msg);
    ReadyIsPrompt(LoadedHttp(c, 0), 5000);
    FirstAgentDies(INITIAL_ADAPTER, ALL, ReadyPeer(LoadedHttp(c, 0)), c, 0);
    ReadyWaits(INITIAL_ADAPTER, ALL, SettledHttp(c, 0), 5000, 1);
  }

  /** The peer that may be stopped at 5001 ms, when `stop` has begun. */
  function RestStopping(c: Value): PeerState {
    StopBegun(ReadyPeer(SettledHttp(c, 0)), 5001)
  }

  lemma RestMayStop(c: Value)
    ensures Quiescence.MayStop(ReadyPeer(SettledHttp(c, 0)), 5001)
    ensures CanHappen(ReadyPeer(SettledHttp(c, 0)), Stop, 5001)
    ensures RestStopping(c).agent == ReadyStopped(5001) && RestStopping(c).own.phase.ClosingAgent?
    ensures RestStopping(c).http == SettledHttp(c, 0)
  {
    ReadyStops(ReadyPeer(SettledHttp(c, 0)).agent, 5001);
  }

  /** A ping after `stop` has begun re-arms the watchdog for good. */
  lemma LatePingOutlivesStop(msg: Value)
    requires IsCertsPayload(msg)
    ensures exists p, q ::
              StopsInto(ALL.(a := GOOD.(noLatePing := false)), p, 5001, q, 5001) && Quiescence.MayStop(p, 5001)
              && q.own.phase.Stopped? && q.agent.watch.pings != map[]
  {
    var env := ALL.(a := GOOD.(noLatePing := false));
    var c := ExtractCerts(msg);
    ReachesRest(msg);
    RestMayStop(c);
    var p, stopping := ReadyPeer(SettledHttp(c, 0)), RestStopping(c);
    var pinged := stopping.(agent := Control.PingReceived(stopping.agent, 5001, 5000));
    var closed := pinged.(agent := Control.SocketClosed(pinged.agent, 0, 5001, 5000));
    var q := StopEnded(Peers.CloseResumed(closed, 1, 5001, DEFAULTS));
    forall s | IsScene(s, stopping, 5001) ensures Reaches(s, env, q, 5001) {
      NoMoves(s, env, stopping, 5001);
      Then(s, env, stopping, 5001, SocketPing(0), Quiet(pinged));
      StopCompletes(s, env, pinged, 5001, 0, 1);
    }
    assert 1 in q.agent.watch.pings;
    assert StopsInto(env, p, 5001, q, 5001);
  }

  function LateHttp(c: Value): Http.HttpState {
    SettledHttp(c, 0).(
      agent := Some(3), handle := Some(2), timers := map[1 := 10_001, 2 := 10_001], created := [c, c, c, c],
      lastRotation := Some(5001))
  }

  lemma LateRotations(h: Http.HttpState, msg: Value)
    requires IsCertsPayload(msg) && h == SettledHttp(ExtractCerts(msg), 0)
    ensures Http.OnServerState(Http.OnServerState(h, CertsEvent(msg), 5001), CertsEvent(msg), 5001)
            == LateHttp(ExtractCerts(msg))
  {
    var c := ExtractCerts(msg);
    assert Http.OnServerState(h, CertsEvent(msg), 5001).created == [c, c, c];
  }

  /** Certificates that come twice on the closing socket leave a destruction that `stop` does not cancel. */
  lemma LateCertsOutliveStop(msg: Value)
    requires IsCertsPayload(msg)
    ensures exists p, q ::
              StopsInto(UNSPACED, p, 5001, q, 5001) && Quiescence.MayStop(p, 5001)
              && q.own.phase.Stopped? && q.http.timers != map[]
  {
    var c := ExtractCerts(msg);
    ReachesRest(msg);
    RestMayStop(c);
    var p, stopping := ReadyPeer(SettledHttp(c, 0)), RestStopping(c);
    var once := AfterCerts(stopping, 0, msg, 5001);
    var twice := AfterCerts(once, 0, msg, 5001);
    LateRotations(stopping.http, msg);
    var closed := twice.(agent := Control.SocketClosed(twice.agent, 0, 5001, 5000));
    var q := StopEnded(Peers.CloseResumed(closed, 1, 5001, DEFAULTS));
    forall s | IsScene(s, stopping, 5001) ensures Reaches(s, UNSPACED, q, 5001) {
      NoMoves(s, UNSPACED, stopping, 5001);
      CertsArrive(s, UNSPACED, stopping, 5001, 0, msg);
      CertsArrive(s, UNSPACED, once, 5001, 0, msg);
      StopCompletes(s, UNSPACED, twice, 5001, 0, 1);
    }
    assert 1 in q.http.timers;
    assert StopsInto(UNSPACED, p, 5001, q, 5001);
  }

  // ---- A superseded connection ------------------------------------------------------------------------------------

  const REFRESHED := REFRESHING.(
    timer := Some(3), timers := map[3 := Auth.Timer(60_000, 0)], fetches := map[], places := map[0 := Auth.Waiting(3)],
    next := 4, last := Some(Auth.Emission("t", 0, 3_630_000, 0)))

  lemma RefreshEnds(s: Auth.AuthState)
    requires s == REFRESHING
    ensures 2 in s.fetches && !s.fetches[2].awaited
    ensures Auth.FetchDone(s, 2, Auth.Body("t", 3600, 30_000), 30_000, DEFAULTS.auth) == REFRESHED
  {
    var d := Auth.GetOidcToken(Auth.Body("t", 3600, 30_000));
    assert d == Auth.Token("t", 3600, 30_000);
    assert Delay(1000 * Auth.UpdateTimeoutSec(d, DEFAULTS.auth)) == 30_000;
    var done := Auth.Rescheduled(s, 2, 60_000, Auth.Emission("t", 0, 3_630_000, 0));
    assert done.fetches == map[] && done.timers == REFRESHED.timers && done.places == REFRESHED.places;
  }

  function Refreshed(agent: Control.AgentState): PeerState {
    Fetched(30_000, 3600, agent).(auth := REFRESHED)
  }

  lemma ReachesRefreshed()
    ensures Reaches(INITIAL_ADAPTER, ALL, Refreshed(CONNECTING), 30_000)
  {
    ReachesRefreshing();
    RefreshEnds(REFRESHING);
    var body := Auth.Body("t", 3600, 30_000);
    assert Auth.GetOidcToken(body) == Auth.Token("t", 3600, 30_000);
    Then(INITIAL_ADAPTER, ALL, Refreshing(CONNECTING), 30_000, TokenFetch(2, body),
         Turn(Refreshed(CONNECTING), PingAuthDetails(StateEvent(Some("t"), None)), false));
  }

  lemma ReachesSuperseded()
    ensures Reaches(INITIAL_ADAPTER, ALL, Refreshed(SECOND), 35_000)
  {
    ReachesRefreshed();
    var p := Refreshed(CONNECTING);
    Later(INITIAL_ADAPTER, ALL, p, 30_000, 5000);
    SecondSocket(p.agent);
    Then(INITIAL_ADAPTER, ALL, p, 35_000, PingTimer(0), Quiet(Refreshed(SECOND)));
  }

  const SECOND_STOPPED := SECOND.(
    sockets := [
      Control.Socket(Control.Connecting, Some(Control.Starter)),
      Control.Socket(Control.Closing, Some(Control.Watchdog))],
    shouldReconnect := false,
    watch := Control.Watch(Some(1), map[], 2, true, 35_000).(armed := false),
    closes := map[0 := Control.Close(Some(1), 40_000, Control.ForStop, false)],
    next := 1)

  const SUPERSEDED_FAILED := SECOND_STOPPED.(
    sockets := [Control.Socket(Control.Open, None), Control.Socket(Control.Closing, Some(Control.Watchdog))],
    closes := map[
      0 := Control.Close(Some(1), 40_000, Control.ForStop, false),
      1 := Control.Close(Some(1), 40_000, Control.ForRetry(false, 35_000), false)],
    next := 2)

  lemma SecondStops(s: Control.AgentState)
    requires s == SECOND
    ensures Control.ClosingFor(s, Control.ForStop, 35_000) == SECOND_STOPPED
  {
    assert Clear(s.watch.pings, s.watch.pingTimeout) == map[];
  }

  lemma SupersededOpens(s: Control.AgentState)
    requires s == SECOND_STOPPED
    ensures var open := Control.SocketOpened(s, 0);
            !Control.IsOpen(open)
            && Control.ClosingFor(open, Control.ForRetry(false, 35_000), 35_000) == SUPERSEDED_FAILED
  {
  }

  lemma SupersededOutlivesStop(p: PeerState)
    requires p == Refreshed(SECOND)
    ensures exists q :: StopsInto(ALL, p, 35_000, q, 35_000) && q.own.phase.Stopped? && q.own.retries != map[]
  {
    ReachesSuperseded();
    var stopping := StopBegun(p, 35_000);
    SecondStops(p.agent);
    SupersededOpens(stopping.agent);
    var failed := FailAttempt(stopping.(agent := Control.SocketOpened(stopping.agent, 0)), false, 35_000);
    assert failed.agent == SUPERSEDED_FAILED;
    var q := AfterBoth(failed, 35_000, 1, 1, 0);
    forall s | IsScene(s, stopping, 35_000) ensures Reaches(s, ALL, q, 35_000) {
      NoMoves(s, ALL, stopping, 35_000);
      Then(s, ALL, stopping, 35_000, SocketOpen(0), Quiet(failed));
      BothComplete(s, ALL, failed, 35_000, 1, 1, 0);
    }
    RetryOutlivesStop(failed, 35_000, 1, 1, 0);
    assert StopsInto(ALL, p, 35_000, q, 35_000);
  }

  /** A superseded socket that opens after `stop` fails the attempt that waits for it, and a retry is scheduled. */
  lemma StopMissesSocket()
    ensures exists p, q ::
              && StopsInto(ALL, p, 35_000, q, 35_000) && q.own.phase.Stopped? && q.own.retries != map[]
              && p.auth.fetches == map[] && p.agent.receives == map[] && p.agent.closes == map[]
              && Auth.AllStoppable(p.auth) && Http.SettledAt(p.http, 35_000)
  {
    var p := Refreshed(SECOND);
    SupersededOutlivesStop(p);
    assert Auth.AllStoppable(p.auth) && Http.SettledAt(p.http, 35_000);
  }

  // ---- Two refresh loops ------------------------------------------------------------------------------------------

  const SLOW_REFRESH := FirstAuth(1000, 31).(
    timers := map[], fetches := map[2 := Auth.Fetch(1000, 0, false)], places := map[0 := Auth.Requesting(2)], next := 3)

  lemma SlowRefresh(s: Auth.AuthState)
    requires s == FirstAuth(1000, 31)
    ensures 1 in s.timers && Auth.TimerFires(s, 1) == SLOW_REFRESH
  {
    assert s.timers - {1} == map[];
    assert s.places[0 := Auth.Requesting(2)] == SLOW_REFRESH.places;
  }

  /** The refresh after 1 s takes longer than the attempt, which fails after 5 s. */
  function Slow(agent: Control.AgentState): PeerState {
    Fetched(1000, 31, agent).(auth := SLOW_REFRESH)
  }

  lemma SlowIsPrompt()
    ensures NoneResuming(Slow(LOADING)) && PromptUntil(Slow(LOADING), 5000)
  {
  }

  lemma SlowRetryIsPrompt()
    ensures NoneResuming(SlowRetrying()) && PromptUntil(SlowRetrying(), 65_000)
  {
  }

  lemma ReachesShortToken()
    ensures Reaches(INITIAL_ADAPTER, ALL, Fetched(1000, 31, LOADING), 1000)
  {
    ReachesLoading(ALL, 1000, 31);
    Later(INITIAL_ADAPTER, ALL, Fetched(1000, 31, LOADING), 0, 1000);
  }

  lemma ReachesSlowRefresh()
    ensures Reaches(INITIAL_ADAPTER, ALL, Slow(LOADING), 1000)
  {
    ReachesShortToken();
    var p := Fetched(1000, 31, LOADING);
    SlowRefresh(p.auth);
    Then(INITIAL_ADAPTER, ALL, p, 1000, TokenTimer(1), Quiet(Slow(LOADING)));
  }

  lemma ReachesSlow()
    ensures Reaches(INITIAL_ADAPTER, ALL, Slow(LOADING), 5000)
  {
    ReachesSlowRefresh();
    SlowIsPrompt();
    Later(INITIAL_ADAPTER, ALL, Slow(LOADING), 1000, 4000);
  }

  const UNSTOPPED := SLOW_REFRESH.(timer := None)

  function SlowRetrying(): PeerState {
    Slow(CleanedUp(FAILED.watch)).(auth := UNSTOPPED, own := RETRYING)
  }

  lemma ReachesSlowRetrying()
    ensures Reaches(INITIAL_ADAPTER, ALL, SlowRetrying(), 5000)
  {
    ReachesSlow();
    FailsAt5s(INITIAL_ADAPTER, ALL, Slow(LOADING));
    CleansUp(INITIAL_ADAPTER, ALL, Slow(FAILED).(auth := UNSTOPPED));
  }

  lemma ReachesSlowRetry()
    ensures Reaches(INITIAL_ADAPTER, ALL, SlowRetrying(), 65_000)
  {
    ReachesSlowRetrying();
    SlowRetryIsPrompt();
    Later(INITIAL_ADAPTER, ALL, SlowRetrying(), 5000, 60_000);
  }

  const BOTH_FETCHING := UNSTOPPED.(
    fetches := map[2 := Auth.Fetch(1000, 0, false), 3 := Auth.Fetch(65_000, 1, true)],
    places := map[0 := Auth.Requesting(2), 1 := Auth.Requesting(3)], next := 4, loops := 2)

  const ONE_FETCHED := BOTH_FETCHING.(
    timer := Some(4), timers := map[4 := Auth.Timer(95_000, 1)], fetches := map[2 := Auth.Fetch(1000, 0, false)],
    places := map[0 := Auth.Requesting(2), 1 := Auth.Waiting(4)], next := 5,
    last := Some(Auth.Emission("t", 1, 3_665_000, 0)))

  const TWO_LOOPS := ONE_FETCHED.(
    timer := Some(5), timers := map[4 := Auth.Timer(95_000, 1), 5 := Auth.Timer(95_000, 0)], fetches := map[],
    places := map[0 := Auth.Waiting(5), 1 := Auth.Waiting(4)], next := 6,
    last := Some(Auth.Emission("t", 0, 3_665_000, 0)))

  lemma TokenAt65s()
    ensures var d := Auth.GetOidcToken(Auth.Body("t", 3600, 65_000));
            d == Auth.Token("t", 3600, 65_000) && Delay(1000 * Auth.UpdateTimeoutSec(d, DEFAULTS.auth)) == 30_000
  {
  }

  lemma BothFetch(s: Auth.AuthState)
    requires s == UNSTOPPED
    ensures Auth.Begin(s, 65_000) == BOTH_FETCHING
  {
  }

  lemma OneFetches(s: Auth.AuthState)
    requires s == BOTH_FETCHING
    ensures Auth.FetchDone(s, 3, Auth.Body("t", 3600, 65_000), 65_000, DEFAULTS.auth) == ONE_FETCHED
  {
    TokenAt65s();
    var done := Auth.Rescheduled(s, 3, 95_000, Auth.Emission("t", 1, 3_665_000, 0));
    assert done.fetches == ONE_FETCHED.fetches && done.timers == ONE_FETCHED.timers
           && done.places == ONE_FETCHED.places;
  }

  lemma OtherFetches(s: Auth.AuthState)
    requires s == ONE_FETCHED
    ensures Auth.FetchDone(s, 2, Auth.Body("t", 3600, 65_000), 65_000, DEFAULTS.auth) == TWO_LOOPS
  {
    TokenAt65s();
    var done := Auth.Rescheduled(s, 2, 95_000, Auth.Emission("t", 0, 3_665_000, 0));
    assert done.fetches == map[] && done.timers == TWO_LOOPS.timers && done.places == TWO_LOOPS.places;
  }

  const RETRIED_OWN := RETRYING.(retries := map[])

  /** From 65 s on, with both loops running. */
  function Doubled(auth: Auth.AuthState, agent: Control.AgentState): PeerState {
    Fetched(1000, 31, agent).(auth := auth, own := RETRIED_OWN)
  }

  lemma ReachesBothFetching()
    ensures Reaches(INITIAL_ADAPTER, ALL, Doubled(BOTH_FETCHING, CleanedUp(FAILED.watch)), 65_000)
  {
    ReachesSlowRetry();
    var p := SlowRetrying();
    BothFetch(p.auth);
    assert p.own.retries - {0} == map[];
    var retried := Doubled(BOTH_FETCHING, CleanedUp(FAILED.watch));
    assert RetryFires(p, 0, 65_000) == retried;
    Then(INITIAL_ADAPTER, ALL, p, 65_000, RetryTimer(0), Quiet(retried));
  }

  const CONNECTING_AGAIN := CleanedUp(FAILED.watch).(
    ws := Some(1),
    sockets := [Control.Socket(Control.Closed, None), Control.Socket(Control.Connecting, Some(Control.Starter))],
    watch := Control.Watch(Some(1), map[1 := 100_000], 2, true, 65_000))

  const LOADING_AGAIN := CONNECTING_AGAIN.(
    sockets := [Control.Socket(Control.Closed, None), Control.Socket(Control.Open, None)],
    listeners := {0, 1},
    receives := map[2 := Control.Awaiting(1, 70_000, Control.Starter)],
    next := 3,
    sent := [ReadConfiguration(), ReadConfiguration()])

  const READY_AGAIN := LOADING_AGAIN.(listeners := {0}, receives := map[])

  lemma ConnectsAgain(s: Control.AgentState)
    requires s == CleanedUp(FAILED.watch)
    ensures !Control.IsOpen(s) && Control.Opened(s, Control.Starter, 65_000, 5000) == CONNECTING_AGAIN
  {
    assert s.sockets + [Control.Socket(Control.Connecting, Some(Control.Starter))] == CONNECTING_AGAIN.sockets;
    assert Clear(s.watch.pings, s.watch.pingTimeout) == map[];
  }

  lemma LoadsAgain(s: Control.AgentState)
    requires s == CONNECTING_AGAIN
    ensures Control.IsOpen(Control.SocketOpened(s, 1))
    ensures Control.LoadingCerts(Control.SocketOpened(s, 1), Control.Starter, 65_000, 5000) == LOADING_AGAIN
  {
    assert s.sent + [ReadConfiguration()] == LOADING_AGAIN.sent;
  }

  lemma ReceivesAgain(s: Control.AgentState, msg: Value)
    requires s == LOADING_AGAIN && IsCertsPayload(msg)
    ensures var arrived := Control.MessageReceived(s, 1, msg);
            && arrived.receives == map[2 := Control.Received(msg, Control.Starter)]
            && Control.ReceiveResumed(arrived, 2) == READY_AGAIN
  {
    assert Control.ReceiveResumed(Control.MessageReceived(s, 1, msg), 2).receives == map[];
  }

  lemma ReachesOneFetched()
    ensures Reaches(INITIAL_ADAPTER, ALL, Doubled(ONE_FETCHED, CONNECTING_AGAIN), 65_000)
  {
    ReachesBothFetching();
    var p := Doubled(BOTH_FETCHING, CleanedUp(FAILED.watch));
    ConnectsAgain(p.agent);
    OneFetches(p.auth);
    TokenComes(INITIAL_ADAPTER, ALL, p, 65_000, 3, 3600);
    assert AfterToken(p, 3, 3600, 65_000) == Doubled(ONE_FETCHED, CONNECTING_AGAIN);
  }

  lemma ReachesTwoLoops()
    ensures Reaches(INITIAL_ADAPTER, ALL, Doubled(TWO_LOOPS, LOADING_AGAIN), 65_000)
  {
    ReachesOneFetched();
    var p, q := Doubled(ONE_FETCHED, CONNECTING_AGAIN), Doubled(TWO_LOOPS, CONNECTING_AGAIN);
    OtherFetches(p.auth);
    TokenAt65s();
    Then(INITIAL_ADAPTER, ALL, p, 65_000, TokenFetch(2, Auth.Body("t", 3600, 65_000)),
         Turn(q, PingAuthDetails(StateEvent(Some("t"), None)), false));
    LoadsAgain(q.agent);
    Then(INITIAL_ADAPTER, ALL, q, 65_000, SocketOpen(1), Quiet(Doubled(TWO_LOOPS, LOADING_AGAIN)));
  }

  const READY_OWN := OwnState(true, Some(0), map[], Some(1), map[1 := 1_865_000], true, true, Running, 2)

  function ReadyAgain(http: Http.HttpState): PeerState {
    Doubled(TWO_LOOPS, READY_AGAIN).(http := http, own := READY_OWN)
  }

  lemma ReachesReadyAgain(msg: Value)
    requires IsCertsPayload(msg)
    ensures Reaches(INITIAL_ADAPTER, ALL, ReadyAgain(LoadedHttp(ExtractCerts(msg), 65_000)), 65_000)
  {
    ReachesTwoLoops();
    var p := Doubled(TWO_LOOPS, LOADING_AGAIN);
    ReceivesAgain(p.agent, msg);
    LoadsHttp(p.http, msg, 65_000);
    CertsArrive(INITIAL_ADAPTER, ALL, p, 65_000, 1, msg);
    CertsLoad(INITIAL_ADAPTER, ALL, AfterCerts(p, 1, msg, 65_000), 65_000, 2, msg);
    assert AfterLoading(AfterCerts(p, 1, msg, 65_000), 2, msg, 65_000)
        == ReadyAgain(LoadedHttp(ExtractCerts(msg), 65_000));
  }

  lemma DoubledIsPrompt(http: Http.HttpState, until: nat)
    requires until <= 95_000 && forall a :: a in http.timers ==> until <= http.timers[a]
    ensures NoneResuming(ReadyAgain(http)) && PromptUntil(ReadyAgain(http), until)
  {
  }

  lemma ReachesDoubledRest(msg: Value)
    requires IsCertsPayload(msg)
    ensures Reaches(INITIAL_ADAPTER, ALL, ReadyAgain(SettledHttp(ExtractCerts(msg), 65_000)), 70_000)
  {
    ReachesReadyAgain(msg);
    DoubledIsPrompt(LoadedHttp(ExtractCerts(msg), 65_000), 70_000);
    FirstAgentDies(INITIAL_ADAPTER, ALL, ReadyAgain(LoadedHttp(ExtractCerts(msg), 65_000)), ExtractCerts(msg), 65_000);
  }

  lemma ReachesDoubledQuiet(msg: Value)
    requires IsCertsPayload(msg)
    ensures Reaches(INITIAL_ADAPTER, ALL, ReadyAgain(SettledHttp(ExtractCerts(msg), 65_000)), 70_001)
  {
    ReachesDoubledRest(msg);
    DoubledIsPrompt(SettledHttp(ExtractCerts(msg), 65_000), 70_001);
    Later(INITIAL_ADAPTER, ALL, ReadyAgain(SettledHttp(ExtractCerts(msg), 65_000)), 70_000, 1);
  }

  function DoubledStopping(c: Value): PeerState {
    StopBegun(ReadyAgain(SettledHttp(c, 65_000)), 70_001)
  }

  function DoubledClosed(c: Value): PeerState {
    DoubledStopping(c).(agent := Control.SocketClosed(DoubledStopping(c).agent, 1, 70_001, 5000))
  }

  lemma DoubledStops(c: Value)
    ensures var p := ReadyAgain(SettledHttp(c, 65_000));
            && Quiescence.AtRest(p) && Http.SettledAt(p.http, 70_001)
            && CanHappen(p, Stop, 70_001)
            && DoubledStopping(c).agent.closes == map[3 := Control.Close(Some(1), 75_001, Control.ForStop, false)]
            && Alive(DoubledStopping(c).agent, 1)
            && 4 in DoubledStopping(c).auth.timers
  {
  }

  /**
   * An attempt fails while the refresh of its first token is in flight, so that `stopUpdates` finds no timer; the retry
   * starts a second loop. When the peer is stopped later, at rest, only the loop that was scheduled last ends.
   */
  lemma TwoLoops(msg: Value)
    requires IsCertsPayload(msg)
    ensures exists p, q ::
              StopsInto(ALL, p, 70_001, q, 70_001) && Quiescence.AtRest(p) && Http.SettledAt(p.http, 70_001)
              && q.own.phase.Stopped? && q.auth.timers != map[]
  {
    var c := ExtractCerts(msg);
    var p := ReadyAgain(SettledHttp(c, 65_000));
    ReachesDoubledQuiet(msg);
    DoubledStops(c);
    var q := StopEnded(Peers.CloseResumed(DoubledClosed(c), 3, 70_001, DEFAULTS));
    forall s | IsScene(s, DoubledStopping(c), 70_001) ensures Reaches(s, ALL, q, 70_001) {
      NoMoves(s, ALL, DoubledStopping(c), 70_001);
      StopCompletes(s, ALL, DoubledStopping(c), 70_001, 1, 3);
    }
    assert q.auth == DoubledStopping(c).auth;
    assert StopsInto(ALL, p, 70_001, q, 70_001);
  }
}
