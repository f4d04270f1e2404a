/** How the runs of the counterexamples begin, with the default configuration. */
module Beginnings {
  import opened Prelude
  import opened Codec
  import opened Protocol
  import opened Peers
  import opened Adapter
  import opened Scenarios
  import Auth
  import Http
  import Control

  /** All assumptions about the environment hold. */
  const GOOD := Habits(true, true, true, true)

  const ALL := Environment(GOOD, GOOD)

  // ---- A first token, a first socket ------------------------------------------------------------------------------

  const BEGUN := StartBegun(INITIAL_PEER, 0)

  const CONNECTING := Control.INITIAL_AGENT.(
    ws := Some(0),
    sockets := [Control.Socket(Control.Connecting, Some(Control.Starter))],
    watch := Control.Watch(Some(0), map[0 := 35_000], 1, true, 0))

  const LOADING := CONNECTING.(
    sockets := [Control.Socket(Control.Open, None)],
    listeners := {0},
    receives := map[0 := Control.Awaiting(0, 5000, Control.Starter)],
    next := 1,
    sent := [ReadConfiguration()])

  /** A token that lives for 30 s is refreshed at once, one that lives for 31 s after 1 s, for an hour after 30 s. */
  predicate Expiry(due: nat, expiresIn: nat) {
    (due == 1 && expiresIn == 30) || (due == 1000 && expiresIn == 31) || (due == 30_000 && expiresIn == 3600)
  }

  function FirstAuth(due: nat, expiresIn: nat): Auth.AuthState {
    Auth.AuthState(
      Some(1), map[1 := Auth.Timer(due, 0)], map[], 2, 1, map[0 := Auth.Waiting(1)], 0,
      Some(Auth.Emission("t", 0, 1000 * expiresIn, 0)))
  }

  /** At time 0 the first token has come and the agent is in state `agent`. */
  function Fetched(due: nat, expiresIn: nat, agent: Control.AgentState): PeerState {
    INITIAL_PEER.(
      auth := FirstAuth(due, expiresIn),
      agent := agent,
      http := Http.INITIAL_HTTP.(accessToken := "t"),
      own := INITIAL_PEER.own.(started := true))
  }

  lemma BegunAuth()
    ensures BEGUN.auth
            == Auth.INITIAL_AUTH.(fetches := map[0 := Auth.Fetch(0, 0, true)], places := map[0 := Auth.Requesting(0)],
               next := 1, loops := 1)
  {
  }

  lemma FirstAuthState(due: nat, expiresIn: nat)
    requires Expiry(due, expiresIn)
    ensures 0 in BEGUN.auth.fetches && BEGUN.auth.fetches[0].awaited
    ensures Auth.FetchDone(BEGUN.auth, 0, Auth.Body("t", expiresIn, 0), 0, DEFAULTS.auth) == FirstAuth(due, expiresIn)
  {
    BegunAuth();
    var d := Auth.GetOidcToken(Auth.Body("t", expiresIn, 0));
    assert d == Auth.Token("t", expiresIn, 0);
    assert Delay(1000 * Auth.UpdateTimeoutSec(d, DEFAULTS.auth)) == due;
    var s := Auth.Rescheduled(BEGUN.auth, 0, due, Auth.Emission("t", 0, 1000 * expiresIn, 0));
    assert s.fetches == map[];
    assert s.places == map[0 := Auth.Waiting(1)];
    assert s.timers == map[1 := Auth.Timer(due, 0)];
  }

  lemma FirstSocket(s: Control.AgentState)
    requires s == Control.INITIAL_AGENT
    ensures Control.Opened(s, Control.Starter, 0, 5000) == CONNECTING
  {
    assert s.sockets + CONNECTING.sockets == CONNECTING.sockets;
  }

  lemma ReachesFetched(env: Environment, due: nat, expiresIn: nat)
    requires Expiry(due, expiresIn) && (env.a.longTokens ==> expiresIn >= 31)
    ensures Reaches(INITIAL_ADAPTER, env, BEGUN, 0)
    ensures Reaches(INITIAL_ADAPTER, env, Fetched(due, expiresIn, CONNECTING), 0)
  {
    NoMoves(INITIAL_ADAPTER, env, INITIAL_PEER, 0);
    Then(INITIAL_ADAPTER, env, INITIAL_PEER, 0, Start, Quiet(BEGUN));
    FirstAuthState(due, expiresIn);
    FirstSocket(BEGUN.agent);
    TokenComes(INITIAL_ADAPTER, env, BEGUN, 0, 0, expiresIn);
    assert AfterToken(BEGUN, 0, expiresIn, 0) == Fetched(due, expiresIn, CONNECTING);
  }

  lemma ReachesLoading(env: Environment, due: nat, expiresIn: nat)
    requires Expiry(due, expiresIn) && (env.a.longTokens ==> expiresIn >= 31)
    ensures Reaches(INITIAL_ADAPTER, env, Fetched(due, expiresIn, LOADING), 0)
  {
    ReachesFetched(env, due, expiresIn);
    var p := Fetched(due, expiresIn, CONNECTING);
    var turn := SocketOpened(p, 0, 0, DEFAULTS);
    assert turn.peer.agent == LOADING;
    Then(INITIAL_ADAPTER, env, p, 0, SocketOpen(0), turn);
  }

  // ---- A first attempt that fails -----------------------------------------------------------------------------------

  const FAILED := LOADING.(
    sockets := [Control.Socket(Control.Closing, None)],
    shouldReconnect := false,
    watch := Control.Watch(Some(0), map[], 1, false, 0),
    receives := map[],
    closes := map[1 := Control.Close(Some(0), 10_000, Control.ForRetry(false, 5000), false)],
    next := 2)

  lemma LoadingFails(s: Control.AgentState)
    requires s == LOADING
    ensures var rejected := Control.ReceiveTimedOut(s, 0);
            && rejected.receives == map[0 := Control.Rejected(Control.Starter)]
            && Control.ClosingFor(Control.ReceiveResumed(rejected, 0), Control.ForRetry(false, 5000), 5000) == FAILED
  {
  }

  /** `loadCerts` times out after 5 s, and the attempt begins to clean up. */
  lemma FailsAt5s(s: AdapterState, env: Environment, p: PeerState)
    requires Reaches(s, env, p, 5000) && p.agent == LOADING && p.own == INITIAL_PEER.own.(started := true)
    ensures Reaches(s, env, p.(auth := Auth.Halt(p.auth), agent := FAILED), 5000)
  {
    LoadingFails(p.agent);
    var rejected := p.(agent := Control.ReceiveTimedOut(p.agent, 0));
    Then(s, env, p, 5000, ReceiveTimer(0), Quiet(rejected));
    var failed := p.(auth := Auth.Halt(p.auth), agent := FAILED);
    Then(s, env, rejected, 5000, ResumeReceive(0), Quiet(failed));
  }

  /** At 5 s the first attempt has failed. */
  function FailedFirst(): PeerState {
    Fetched(30_000, 3600, FAILED).(auth := Auth.Halt(FirstAuth(30_000, 3600)))
  }

  lemma ReachesFailed(env: Environment)
    ensures Reaches(INITIAL_ADAPTER, env, FailedFirst(), 5000)
  {
    ReachesLoading(env, 30_000, 3600);
    Later(INITIAL_ADAPTER, env, Fetched(30_000, 3600, LOADING), 0, 5000);
    FailsAt5s(INITIAL_ADAPTER, env, Fetched(30_000, 3600, LOADING));
  }

  const RETRYING := OwnState(
    false, Some(0), map[0 := Retry(65_000, 5000, false)], None, map[], true, true, Running, 1)

  /** The agent of a failed attempt once it is cleaned up; a late ping may have re-armed its watchdog. */
  function CleanedUp(watch: Control.Watch): Control.AgentState {
    FAILED.(ws := None, sockets := [Control.Socket(Control.Closed, None)], watch := watch, closes := map[])
  }

  lemma FailedCloses(s: Control.AgentState)
    requires s == FAILED.(watch := s.watch)
    ensures var closed := Control.SocketClosed(s, 0, 5000, 5000);
            && closed.closes == map[1 := FAILED.closes[1].(settled := true)]
            && Control.CloseResumed(closed, 1) == CleanedUp(s.watch)
  {
    var closed := Control.SocketClosed(s, 0, 5000, 5000);
    assert closed.closes == map[1 := FAILED.closes[1].(settled := true)];
    assert Control.CloseResumed(closed, 1).closes == map[];
  }

  lemma CleansUp(s: AdapterState, env: Environment, p: PeerState)
    requires Reaches(s, env, p, 5000) && p.agent == FAILED.(watch := p.agent.watch)
    requires p.own == INITIAL_PEER.own.(started := true)
    ensures Reaches(s, env, p.(agent := CleanedUp(p.agent.watch), own := RETRYING), 5000)
  {
    FailedCloses(p.agent);
    var closed := p.(agent := Control.SocketClosed(p.agent, 0, 5000, 5000));
    Then(s, env, p, 5000, SocketClose(0), Quiet(closed));
    var retrying := p.(agent := CleanedUp(p.agent.watch), own := RETRYING);
    assert Peers.CloseResumed(closed, 1, 5000, DEFAULTS).own == RETRYING;
    Then(s, env, closed, 5000, ResumeClose(1), Quiet(retrying));
  }

  // ---- Certificates that are delivered twice ------------------------------------------------------------------------

  /** The HTTP server after the first certificate message was delivered twice at time `now`. */
  function LoadedHttp(c: Value, now: nat): Http.HttpState {
    Http.INITIAL_HTTP.(
      accessToken := "t", agent := Some(1), handle := Some(0), timers := map[0 := now + 5000], created := [c, c],
      lastRotation := Some(now))
  }

  lemma LoadsHttp(h: Http.HttpState, msg: Value, now: nat)
    requires h == Http.INITIAL_HTTP.(accessToken := "t") && IsCertsPayload(msg)
    ensures Http.OnServerState(Http.OnServerState(h, CertsEvent(msg), now), CertsEvent(msg), now)
            == LoadedHttp(ExtractCerts(msg), now)
  {
    var once := Http.OnServerState(h, CertsEvent(msg), now);
    assert once.created == [ExtractCerts(msg)];
  }

  /** The same after the first agent was destroyed. */
  function SettledHttp(c: Value, now: nat): Http.HttpState {
    LoadedHttp(c, now).(handle := None, timers := map[], destroyed := [0])
  }

  lemma FirstAgentDies(s: AdapterState, env: Environment, p: PeerState, c: Value, now: nat)
    requires Reaches(s, env, p, now) && p.http == LoadedHttp(c, now)
    requires NoneResuming(p) && PromptUntil(p, now + 5000)
    ensures Reaches(s, env, p.(http := SettledHttp(c, now)), now + 5000)
  {
    Later(s, env, p, now, 5000);
    var shut := p.(http := SettledHttp(c, now));
    assert Http.ShutdownFires(p.http, 0) == shut.http;
    Then(s, env, p, now + 5000, ShutdownTimer(0), Quiet(shut));
  }

  // ---- A first socket that is slow to open --------------------------------------------------------------------------

  const SECOND := CONNECTING.(
    ws := Some(1),
    sockets := [
      Control.Socket(Control.Connecting, Some(Control.Starter)),
      Control.Socket(Control.Connecting, Some(Control.Watchdog))],
    watch := Control.Watch(Some(1), map[1 := 70_000], 2, true, 35_000))

  const REFRESHING := FirstAuth(30_000, 3600).(
    timers := map[], fetches := map[2 := Auth.Fetch(30_000, 0, false)],
    places := map[0 := Auth.Requesting(2)], next := 3)

  /** At 30 s the refresh of the token is requested; the agent is in state `agent`. */
  function Refreshing(agent: Control.AgentState): PeerState {
    Fetched(30_000, 3600, agent).(auth := REFRESHING)
  }

  lemma RefreshFires(s: Auth.AuthState)
    requires s == FirstAuth(30_000, 3600)
    ensures 1 in s.timers && Auth.TimerFires(s, 1) == REFRESHING
  {
    assert s.timers - {1} == map[];
    assert s.places[0 := Auth.Requesting(2)] == REFRESHING.places;
  }

  lemma ReachesRefresh()
    ensures Reaches(INITIAL_ADAPTER, ALL, Fetched(30_000, 3600, CONNECTING), 30_000)
  {
    ReachesFetched(ALL, 30_000, 3600);
    Later(INITIAL_ADAPTER, ALL, Fetched(30_000, 3600, CONNECTING), 0, 30_000);
  }

  lemma ReachesRefreshing()
    ensures Reaches(INITIAL_ADAPTER, ALL, Refreshing(CONNECTING), 30_000)
  {
    ReachesRefresh();
    var p := Fetched(30_000, 3600, CONNECTING);
    RefreshFires(p.auth);
    Then(INITIAL_ADAPTER, ALL, p, 30_000, TokenTimer(1), Quiet(Refreshing(CONNECTING)));
  }

  /** The watchdog fires at 35 s and opens a second socket. */
  lemma SecondSocket(s: Control.AgentState)
    requires s == CONNECTING
    ensures !Control.IsOpen(s) && Control.PingTimedOut(s, 0, 35_000, 5000) == SECOND
  {
    assert s.watch.pings - {0} == map[];
    assert s.sockets + [Control.Socket(Control.Connecting, Some(Control.Watchdog))] == SECOND.sockets;
  }
}
