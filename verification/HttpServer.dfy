/**
 * Credential state of src/infra/httpServer/HttpServer.ts, with its delayed destruction of replaced HTTPS agents, and
 * the readiness gate of src/domain/ProxyService.ts that reads it.
 */
module Http {
  import opened Prelude
  import opened Codec
  import opened Protocol
  import opened Ping

  const GRACEFUL_AGENT_SHUTDOWN_MS := 5000

  /**
   * Agents are numbered in creation order; agent `a` was built from `created[a]`. A shutdown timer is named by the
   * agent it destroys: `timers` holds the pending ones with their due times, `handle` is the field
   * `oldAgentShutdownTimer`. `destroyed`, `cancelled` and `lastRotation` only record history.
   */
  datatype HttpState = HttpState(
    accessToken: string,
    agent: Option<nat>,
    handle: Option<nat>,
    timers: map<nat, nat>,
    created: seq<Value>,
    listening: bool,
    destroyed: seq<nat>,
    cancelled: set<nat>,
    lastRotation: Option<nat>)

  const INITIAL_HTTP := HttpState("", None, None, map[], [], true, [], {}, None)

  // ---- Turns ------------------------------------------------------------------------------------------------------

  /** `reCreateHttpsAgent`: a replaced agent lives on for 5 s; its timer overwrites the stored handle. */
  function Rotate(s: HttpState, certs: Value, now: nat): HttpState {
    s.(agent := Some(|s.created|),
    created := s.created + [certs],
    timers := if s.agent.Some? then s.timers[s.agent.value := now + GRACEFUL_AGENT_SHUTDOWN_MS] else s.timers,
    handle := if s.agent.Some? then s.agent else s.handle,
    lastRotation := Some(now))
  }

  predicate Rotates(s: HttpState, e: StateEvent) {
    s.listening && e.certs.Some? && Truthy(e.certs.value)
  }

  /** The `serverState` listener: unlike the ping service it also stores an empty token. */
  function OnServerState(s: HttpState, e: StateEvent, now: nat): HttpState {
    var s1 := if s.listening && e.accessToken.Some? then s.(accessToken := e.accessToken.value) else s;
    if Rotates(s, e) then Rotate(s1, e.certs.value, now) else s1
  }

  /** A shutdown timer fires: its agent is destroyed and the stored handle is forgotten, whichever timer it names. */
  function ShutdownFires(s: HttpState, a: nat): HttpState {
    s.(timers := s.timers - {a}, destroyed := s.destroyed + [a], handle := None)
  }

  /** The rest of `stop()`, once the server has stopped. */
  function Stopped(s: HttpState): HttpState {
    s.(listening := false,
    timers := Clear(s.timers, s.handle),
    cancelled := s.cancelled + if s.handle.Some? && s.handle.value in s.timers then {s.handle.value} else {})
  }

  /** Timers fire in the order they are due; those due in the same millisecond in the order they were set. */
  predicate MayFire(s: HttpState, a: nat, now: nat) {
    && a in s.timers && s.timers[a] <= now
    && forall b | b in s.timers :: s.timers[a] < s.timers[b] || (s.timers[a] == s.timers[b] && a <= b)
  }

  // ---- The readiness gate -----------------------------------------------------------------------------------------

  datatype Outcome = Forward(endpoint: string, agent: nat, bearer: string) | Unavailable

  /** `sendProxyRequest` with pm4ml enabled. */
  function SendProxyRequest(s: HttpState, endpoint: string): Outcome {
    if s.accessToken != "" && s.agent.Some? then Forward(endpoint, s.agent.value, s.accessToken) else Unavailable
  }

  function CurrentCerts(s: HttpState): Option<Value> {
    if s.agent.Some? && s.agent.value < |s.created| then Some(s.created[s.agent.value]) else None
  }

  // ---- Conservation of agents -------------------------------------------------------------------------------------

  /**
   * The newest agent is the current one; every other one is awaiting destruction, destroyed, or left alive by `stop`.
   */
  ghost predicate AgentsConserved(s: HttpState) {
    && s.agent == (if s.created == [] then None else Some(|s.created| - 1))
    && (forall a: nat :: a < |s.created| - 1 ==> (a in s.timers || a in s.destroyed || a in s.cancelled))
    && (forall a :: a in s.timers ==> a < |s.created| - 1 && a !in s.destroyed && a !in s.cancelled)
    && (forall a :: a in s.cancelled ==> a < |s.created| - 1 && a !in s.destroyed)
    && (forall a :: a in s.destroyed ==> a < |s.created| - 1)
  }

  /** Agents die in creation order, each at most once. */
  ghost predicate DestroyedInOrder(s: HttpState) {
    && (forall i, j :: 0 <= i < j < |s.destroyed| ==> s.destroyed[i] < s.destroyed[j])
    && (forall d, a :: d in s.destroyed && a in s.timers ==> d < a)
  }

  /** An agent that was replaced later is destroyed later. */
  ghost predicate DueInOrder(s: HttpState) {
    forall a, b :: a in s.timers && b in s.timers && a < b ==> s.timers[a] <= s.timers[b]
  }

  /** Until `stop`, a stored handle is the newest timer and still pending; `stop` cancels at most one. */
  ghost predicate HandleIsNewest(s: HttpState) {
    && (s.listening ==> s.cancelled == {})
    && |s.cancelled| <= 1
    && (s.listening && s.handle.Some? ==>
          s.handle.value in s.timers && forall a :: a in s.timers ==> a <= s.handle.value)
  }

  ghost predicate Inv(s: HttpState) {
    AgentsConserved(s) && DestroyedInOrder(s) && DueInOrder(s) && HandleIsNewest(s)
  }

  lemma RotateKeepsDueOrder(s: HttpState, certs: Value, now: nat)
    requires AgentsConserved(s) && DueInOrder(s) && DueAfterRotation(s, now)
    ensures DueInOrder(Rotate(s, certs, now))
  {
  }

  lemma RotateConserves(s: HttpState, certs: Value, now: nat)
    requires AgentsConserved(s)
    ensures AgentsConserved(Rotate(s, certs, now))
  {
  }

  lemma RotateKeepsOrder(s: HttpState, certs: Value, now: nat)
    requires AgentsConserved(s) && DestroyedInOrder(s)
    ensures DestroyedInOrder(Rotate(s, certs, now))
  {
  }

  lemma RotateKeepsHandle(s: HttpState, certs: Value, now: nat)
    requires AgentsConserved(s) && HandleIsNewest(s)
    ensures HandleIsNewest(Rotate(s, certs, now))
  {
  }

  lemma OnServerStateKeeps(s: HttpState, e: StateEvent, now: nat)
    requires Inv(s) && DueAfterRotation(s, now)
    ensures Inv(OnServerState(s, e, now))
  {
    var s1 := if s.listening && e.accessToken.Some? then s.(accessToken := e.accessToken.value) else s;
    assert Inv(s1);
    if Rotates(s, e) {
      assert OnServerState(s, e, now) == Rotate(s1, e.certs.value, now);
      RotateConserves(s1, e.certs.value, now);
      RotateKeepsDueOrder(s1, e.certs.value, now);
      RotateKeepsOrder(s1, e.certs.value, now);
      RotateKeepsHandle(s1, e.certs.value, now);
    }
  }

  lemma ShutdownFiresKeeps(s: HttpState, a: nat, now: nat)
    requires Inv(s) && MayFire(s, a, now)
    ensures Inv(ShutdownFires(s, a))
  {
    forall i | 0 <= i < |s.destroyed| ensures s.destroyed[i] < a {
      assert s.destroyed[i] in s.destroyed;
    }
    forall b | b in s.timers && b != a ensures a < b {
      assert s.timers[a] <= s.timers[b];
    }
  }

  lemma StoppedKeeps(s: HttpState)
    requires Inv(s) && s.listening
    ensures Inv(Stopped(s))
  {
  }

  /** `stop` leaves no destruction pending exactly when no timer's handle was overwritten or forgotten. */
  ghost predicate AllStoppable(s: HttpState) {
    forall a :: a in s.timers ==> s.handle == Some(a)
  }

  lemma StopLeavesNone(s: HttpState)
    ensures Stopped(s).timers == map[] <==> AllStoppable(s)
  {
    if Stopped(s).timers == map[] {
      forall a | a in s.timers ensures s.handle == Some(a) {
        assert a !in Stopped(s).timers;
      }
    }
  }

  /** Every pending destruction is due within 5 s of the last rotation. */
  ghost predicate DueAfterRotation(s: HttpState, now: nat) {
    && (s.lastRotation.Some? ==> s.lastRotation.value <= now)
    && (forall a :: a in s.timers ==>
                      s.lastRotation.Some? && s.timers[a] <= s.lastRotation.value + 5000)
  }

  lemma DueAfterRotationKept(s: HttpState, e: StateEvent, a: nat, now: nat)
    requires DueAfterRotation(s, now)
    ensures DueAfterRotation(OnServerState(s, e, now), now)
    ensures DueAfterRotation(ShutdownFires(s, a), now)
    ensures DueAfterRotation(Stopped(s), now)
  {
  }

  /** More than 5 s after the last rotation, at a moment when no shutdown timer is overdue. */
  ghost predicate SettledAt(s: HttpState, now: nat) {
    && (forall a :: a in s.timers ==> now <= s.timers[a])
    && (s.lastRotation.Some? ==> now > s.lastRotation.value + 5000)
  }

  lemma SettledIsStoppable(s: HttpState, now: nat)
    requires DueAfterRotation(s, now) && SettledAt(s, now)
    ensures s.timers == map[] && AllStoppable(s)
  {
    assert forall a :: a in s.timers ==> false;
  }

  /** An update that does not rotate, or rotates while no agent awaits its destruction. */
  ghost predicate SpacedAt(s: HttpState, e: StateEvent) {
    Rotates(s, e) ==> s.timers == map[]
  }

  /** Exactly such rotations keep every destruction within the reach of `stop`. */
  lemma RotationStaysStoppable(s: HttpState, e: StateEvent, now: nat)
    requires AgentsConserved(s) && Rotates(s, e)
    ensures AllStoppable(OnServerState(s, e, now)) <==> s.timers == map[]
  {
    if s.timers != map[] {
      var a :| a in s.timers;
      assert a in OnServerState(s, e, now).timers && OnServerState(s, e, now).handle == s.agent;
    }
  }

  lemma SpacedStaysStoppable(s: HttpState, e: StateEvent, now: nat)
    requires AgentsConserved(s) && AllStoppable(s) && SpacedAt(s, e)
    ensures AllStoppable(OnServerState(s, e, now))
  {
    if Rotates(s, e) {
      RotationStaysStoppable(s, e, now);
    }
  }

  /**
   * Two rotations in the same millisecond, as by certificates that are delivered twice, leave a destruction that `stop`
   * cannot reach exactly when there was an agent before them.
   */
  lemma DoubleRotation(s: HttpState, c: Value, now: nat)
    requires AgentsConserved(s)
    ensures AllStoppable(Rotate(Rotate(s, c, now), c, now)) <==> s.agent.None?
  {
    var twice := Rotate(Rotate(s, c, now), c, now);
    if s.agent.Some? {
      assert s.agent.value in twice.timers && twice.handle == Some(|s.created|);
    }
  }

  // ---- No agent dies in use ---------------------------------------------------------------------------------------

  /** Agent `a`, in use at time `t`, is not destroyed before `t` + 5 s. */
  ghost predicate SafeFrom(s: HttpState, a: nat, t: nat, now: nat) {
    && a < |s.created| && t <= now
    && (a in s.timers ==> t + 5000 <= s.timers[a])
    && (a in s.destroyed ==> t + 5000 <= now)
  }

  /** A request is forwarded exactly with a token and after certificates have come, with the newest agent. */
  lemma ForwardsExactly(s: HttpState, endpoint: string)
    requires AgentsConserved(s)
    ensures SendProxyRequest(s, endpoint) ==
            if s.accessToken != "" && s.created != [] then Forward(endpoint, |s.created| - 1, s.accessToken)
            else Unavailable
  {
  }

  lemma CurrentIsSafe(s: HttpState, endpoint: string, now: nat)
    requires Inv(s) && SendProxyRequest(s, endpoint).Forward?
    ensures SafeFrom(s, SendProxyRequest(s, endpoint).agent, now, now)
    ensures SendProxyRequest(s, endpoint).agent !in s.destroyed
  {
  }

  lemma OnServerStateSafe(s: HttpState, e: StateEvent, a: nat, t: nat, now: nat)
    requires AgentsConserved(s) && SafeFrom(s, a, t, now)
    ensures SafeFrom(OnServerState(s, e, now), a, t, now)
  {
  }

  lemma ShutdownFiresSafe(s: HttpState, b: nat, a: nat, t: nat, now: nat)
    requires SafeFrom(s, a, t, now) && MayFire(s, b, now)
    ensures SafeFrom(ShutdownFires(s, b), a, t, now)
  {
  }

  // ---- The class --------------------------------------------------------------------------------------------------

  class HttpServer {
    var accessToken: string
    var httpsAgent: Option<nat>
    var oldAgentShutdownTimer: Option<nat>
    // Shutdown timers handed to the event loop, agents built so far, and whether the listener is attached.
    var timers: map<nat, nat>
    var created: seq<Value>
    var listening: bool
    var destroyed: seq<nat>
    ghost var cancelled: set<nat>
    ghost var lastRotation: Option<nat>

    ghost function Abs(): HttpState reads this {
      HttpState(accessToken, httpsAgent, oldAgentShutdownTimer, timers, created,
        listening, destroyed, cancelled, lastRotation)
    }

    constructor ()
      ensures Abs() == INITIAL_HTTP
    {
      accessToken, httpsAgent, oldAgentShutdownTimer, timers, created := "", None, None, map[], [];
      listening, destroyed, cancelled, lastRotation := true, [], {}, None;
    }

    method ReCreateHttpsAgent(certs: Value, now: nat)
      modifies this
      ensures Abs() == Rotate(old(Abs()), certs, now)
    {
      var oldAgent := httpsAgent;
      httpsAgent, created := Some(|created|), created + [certs];
      if oldAgent.Some? {
        timers := timers[oldAgent.value := now + GRACEFUL_AGENT_SHUTDOWN_MS];
        oldAgentShutdownTimer := oldAgent;
      }
      lastRotation := Some(now);
    }

    /** `emit(serverState, e)` */
    method EmitServerState(e: StateEvent, now: nat)
      modifies this
      ensures Abs() == OnServerState(old(Abs()), e, now)
    {
      if !listening {
        return;
      }
      if e.accessToken.Some? {
        accessToken := e.accessToken.value;
      }
      if e.certs.Some? && Truthy(e.certs.value) {
        ReCreateHttpsAgent(e.certs.value, now);
      }
    }

    method OnShutdownTimer(a: nat)
      requires a in timers
      modifies this
      ensures Abs() == ShutdownFires(old(Abs()), a)
    {
      timers := timers - {a};
      destroyed := destroyed + [a];
      oldAgentShutdownTimer := None;
    }

    /** `stop()` after `await server.stop()` */
    method FinishStop()
      modifies this
      ensures Abs() == Stopped(old(Abs()))
    {
      listening := false;
      if oldAgentShutdownTimer.Some? {
        cancelled := cancelled + if oldAgentShutdownTimer.value in timers then {oldAgentShutdownTimer.value} else {};
        timers := timers - {oldAgentShutdownTimer.value};
      }
    }
  }
}
