/**
 * The WebSocket client of src/infra/controlAgent/ControlAgent.ts: one turn of the event loop per function. The
 * callbacks that messages lead to are the business of the caller, see module `Peers`.
 */
module Control {
  import opened Prelude
  import opened Codec
  import opened Protocol

  const PING_INTERVAL_MS := 30_000
  const WS_CLOSE_TIMEOUT_MS := 5_000

  /** The watchdog delay of an agent whose message timeout is `timeout`. */
  function Window(timeout: int): nat {
    Delay(PING_INTERVAL_MS + timeout)
  }

  datatype ReadyState = Connecting | Open | Closing | Closed

  /** Who awaits a promise of the agent: a start attempt of the peer, or the watchdog callback. */
  datatype Caller = Starter | Watchdog

  /** A socket ever created, with the caller whose `open()` promise its `open` event resolves. */
  datatype Socket = Socket(ready: ReadyState, opener: Option<Caller>)

  /** A `receive()` promise: pending with its timer, or settled and about to resume `loadCerts`. */
  datatype Receive =
    | Awaiting(socket: nat, due: nat, caller: Caller)
    | Received(msg: Value, caller: Caller)
    | Rejected(caller: Caller)

  /** Why `close()` was called, and so what resumes after it. */
  datatype Purpose = ForRetry(dns: bool, failedAt: nat) | ForStop

  /** A `close()` promise: it listens to the socket that was current, if any, and to its own timer. */
  datatype Close = Close(socket: Option<nat>, due: nat, purpose: Purpose, settled: bool)

  /**
   * The ping watchdog: `pingTimeout` is the field of the class, `pings` its pending timers with their due times.
   * `armed` and `armedAt` record that `open()` ran since the last `close()`, and when the watchdog was last re-armed.
   */
  datatype Watch = Watch(pingTimeout: Option<nat>, pings: map<nat, nat>, next: nat, armed: bool, armedAt: nat)

  /**
   * `ws` and `shouldReconnect` are fields of the class; sockets are numbered in creation order; `listeners` are the
   * sockets on which a `once('message')` listener of `receive()` still waits; `sent` is what was written to the
   * sockets.
   */
  datatype AgentState = AgentState(
    ws: Option<nat>,
    sockets: seq<Socket>,
    shouldReconnect: bool,
    watch: Watch,
    listeners: set<nat>,
    receives: map<nat, Receive>,
    closes: map<nat, Close>,
    next: nat,
    sent: seq<Frame>)

  const INITIAL_AGENT := AgentState(None, [], true, Watch(None, map[], 0, false, 0), {}, map[], map[], 0, [])

  // ---- Turns ------------------------------------------------------------------------------------------------------

  predicate IsOpen(s: AgentState) {
    s.ws.Some? && s.ws.value < |s.sockets| && s.sockets[s.ws.value].ready.Open?
  }

  function SchedulePing(w: Watch, now: nat, timeout: int): Watch {
    Watch(Some(w.next), Clear(w.pings, w.pingTimeout)[w.next := now + Window(timeout)], w.next + 1, w.armed, now)
  }

  /** `open()`: the watchdog is re-armed first; the promise is rejected when the current socket is already open. */
  function Opened(s: AgentState, caller: Caller, now: nat, timeout: int): AgentState {
    var watch := SchedulePing(s.watch, now, timeout).(armed := true);
    if IsOpen(s) then s.(watch := watch)
    else s.(watch := watch, sockets := s.sockets + [Socket(Connecting, Some(caller))], ws := Some(|s.sockets|))
  }

  function WithReady(sockets: seq<Socket>, k: nat, ready: ReadyState): seq<Socket>
    requires k < |sockets|
  {
    sockets[k := sockets[k].(ready := ready)]
  }

  /** `this._ws?.close()`: no effect on a socket that is closing or closed. */
  function WsClose(s: AgentState): AgentState {
    if s.ws.Some? && s.ws.value < |s.sockets|
       && (s.sockets[s.ws.value].ready.Open? || s.sockets[s.ws.value].ready.Connecting?)
    then s.(sockets := WithReady(s.sockets, s.ws.value, Closing))
    else s
  }

  /** `close()` up to its `await`. */
  function ClosingFor(s: AgentState, purpose: Purpose, now: nat): AgentState {
    var s1 := s.(
              watch := s.watch.(pings := Clear(s.watch.pings, s.watch.pingTimeout), armed := false),
              closes := s.closes[s.next := Close(s.ws, now + WS_CLOSE_TIMEOUT_MS, purpose, false)],
              next := s.next + 1,
              shouldReconnect := false);
    WsClose(s1)
  }

  /** `close()` after its `await`. */
  function CloseResumed(s: AgentState, c: nat): AgentState {
    s.(closes := s.closes - {c}, ws := None)
  }

  /** `send()`: a socket that is not open only makes it log an error. */
  function Sent(s: AgentState, f: Frame): AgentState {
    if IsOpen(s) then s.(sent := s.sent + [f]) else s
  }

  /** `receive()` on an open socket. */
  function Receiving(s: AgentState, caller: Caller, now: nat, timeout: int): AgentState
    requires IsOpen(s)
  {
    s.(listeners := s.listeners + {s.ws.value},
    receives := s.receives[s.next := Awaiting(s.ws.value, now + Delay(timeout), caller)],
    next := s.next + 1)
  }

  /** `loadCerts()` up to its `await`; on a socket that is not open the caller's promise is rejected at once. */
  function LoadingCerts(s: AgentState, caller: Caller, now: nat, timeout: int): AgentState {
    if IsOpen(s) then Receiving(Sent(s, ReadConfiguration()), caller, now, timeout) else s
  }

  function SocketOpened(s: AgentState, k: nat): AgentState
    requires k < |s.sockets|
  {
    s.(sockets := s.sockets[k := Socket(Open, None)])
  }

  function Settle(closes: map<nat, Close>, k: nat): map<nat, Close> {
    map c | c in closes :: if closes[c].socket == Some(k) then closes[c].(settled := true) else closes[c]
  }

  function SocketClosed(s: AgentState, k: nat, now: nat, timeout: int): AgentState
    requires k < |s.sockets|
  {
    s.(sockets := WithReady(s.sockets, k, Closed),
    closes := Settle(s.closes, k),
    watch := if s.shouldReconnect then SchedulePing(s.watch, now, timeout) else s.watch)
  }

  function PingReceived(s: AgentState, now: nat, timeout: int): AgentState {
    s.(watch := SchedulePing(s.watch, now, timeout))
  }

  /** The listener closes the current socket, not the one that failed. */
  function SocketFailed(s: AgentState, k: nat): AgentState
    requires k < |s.sockets|
  {
    WsClose(s.(sockets := WithReady(s.sockets, k, Closing), closes := Settle(s.closes, k)))
  }

  function Delivered(r: Receive, k: nat, msg: Value): Receive {
    if r.Awaiting? && r.socket == k then
      if IsWsPayload(msg) then Received(msg, r.caller) else Rejected(r.caller)
    else r
  }

  /**
   * A decoded message is taken by the `once` listeners of its socket, and reaches the `receive()` promises still
   * pending.
   */
  function MessageReceived(s: AgentState, k: nat, msg: Value): AgentState {
    s.(listeners := s.listeners - {k}, receives := map r | r in s.receives :: Delivered(s.receives[r], k, msg))
  }

  /** The timer rejects the promise; the `once` listener stays attached to the socket. */
  function ReceiveTimedOut(s: AgentState, r: nat): AgentState
    requires r in s.receives
  {
    s.(receives := s.receives[r := Rejected(s.receives[r].caller)])
  }

  function ReceiveResumed(s: AgentState, r: nat): AgentState {
    s.(receives := s.receives - {r})
  }

  function CloseTimedOut(s: AgentState, c: nat): AgentState
    requires c in s.closes
  {
    s.(closes := s.closes[c := s.closes[c].(settled := true)])
  }

  /** The watchdog callback up to its first `await`. */
  function PingTimedOut(s: AgentState, t: nat, now: nat, timeout: int): AgentState {
    Opened(s.(watch := s.watch.(pings := s.watch.pings - {t})), Watchdog, now, timeout)
  }

  // ---- Errors on sockets ------------------------------------------------------------------------------------------

  /** An error on any socket closes that socket and the current one, and leaves the others alone. */
  lemma ErrorClosesCurrent(s: AgentState, k: nat, i: nat)
    requires k < |s.sockets| && i < |s.sockets|
    ensures var s' := SocketFailed(s, k);
            && !IsOpen(s') && |s'.sockets| == |s.sockets|
            && s'.sockets[i].opener == s.sockets[i].opener
            && s'.sockets[i].ready ==
               if i == k || (s.ws == Some(i) && s.sockets[i].ready in {Connecting, Open}) then Closing
               else s.sockets[i].ready
  {
  }

  // ---- The watchdog -----------------------------------------------------------------------------------------------

  /**
   * At most one watchdog timer is pending, exactly one between `open()` and `close()`, due one window after it was
   * armed.
   */
  ghost predicate WatchInv(w: Watch, timeout: int, now: nat) {
    && (forall t :: t in w.pings ==> w.pingTimeout == Some(t) && w.pings[t] == w.armedAt + Delay(30_000 + timeout))
    && (w.armed ==> w.pingTimeout.Some? && w.pingTimeout.value in w.pings)
    && w.armedAt <= now
  }

  lemma SchedulePingKeeps(w: Watch, now: nat, timeout: int)
    requires WatchInv(w, timeout, now)
    ensures WatchInv(SchedulePing(w, now, timeout), timeout, now)
    ensures SchedulePing(w, now, timeout).pings == map[w.next := now + Delay(30_000 + timeout)]
  {
    assert forall t :: t in Clear(w.pings, w.pingTimeout) ==> false;
  }

  lemma OpenedKeeps(s: AgentState, caller: Caller, now: nat, timeout: int)
    requires WatchInv(s.watch, timeout, now)
    ensures WatchInv(Opened(s, caller, now, timeout).watch, timeout, now)
  {
    SchedulePingKeeps(s.watch, now, timeout);
  }

  lemma PingTimedOutKeeps(s: AgentState, t: nat, now: nat, timeout: int)
    requires WatchInv(s.watch, timeout, now) && t in s.watch.pings
    ensures WatchInv(PingTimedOut(s, t, now, timeout).watch, timeout, now)
  {
    var w := s.watch.(pings := s.watch.pings - {t});
    SchedulePingKeeps(w.(armed := false), now, timeout);
  }

  lemma ClosingForKeeps(s: AgentState, purpose: Purpose, now: nat, timeout: int)
    requires WatchInv(s.watch, timeout, now)
    ensures WatchInv(ClosingFor(s, purpose, now).watch, timeout, now)
    ensures ClosingFor(s, purpose, now).watch.pings == map[]
  {
  }

  // ---- The class --------------------------------------------------------------------------------------------------

  class ControlAgent {
    const timeout: int
    var ws: Option<nat>
    var shouldReconnect: bool
    var pingTimeout: Option<nat>
    // Sockets created so far, timers and promises handed to the event loop, and messages written.
    var sockets: seq<Socket>
    var pings: map<nat, nat>
    var nextPing: nat
    var listeners: set<nat>
    var receives: map<nat, Receive>
    var closes: map<nat, Close>
    var next: nat
    var sent: seq<Frame>
    ghost var armed: bool
    ghost var armedAt: nat

    ghost function Abs(): AgentState reads this {
      AgentState(
        ws, sockets, shouldReconnect, Watch(pingTimeout, pings, nextPing, armed, armedAt), listeners, receives, closes,
        next, sent)
    }

    constructor (timeout: int)
      ensures this.timeout == timeout && Abs() == INITIAL_AGENT
    {
      this.timeout := timeout;
      ws, shouldReconnect, pingTimeout, sockets, pings, nextPing := None, true, None, [], map[], 0;
      listeners, receives, closes, next, sent, armed, armedAt := {}, map[], map[], 0, [], false, 0;
    }

    /** `schedulePing`, also the listener of the `ping` event */
    method OnPing(now: nat)
      modifies this
      ensures Abs() == PingReceived(old(Abs()), now, timeout)
    {
      if pingTimeout.Some? {
        pings := pings - {pingTimeout.value};
      }
      pings := pings[nextPing := now + Window(timeout)];
      pingTimeout, nextPing, armedAt := Some(nextPing), nextPing + 1, now;
    }

    method CurrentIsOpen() returns (isOpen: bool)
      ensures isOpen == IsOpen(Abs())
    {
      isOpen := ws.Some? && ws.value < |sockets| && sockets[ws.value].ready.Open?;
    }

    /** `open()`: tells whether its promise is rejected at once. */
    method Open(caller: Caller, now: nat) returns (rejected: bool)
      modifies this
      ensures Abs() == Opened(old(Abs()), caller, now, timeout)
      ensures rejected == IsOpen(old(Abs()))
    {
      OnPing(now);
      armed := true;
      rejected := CurrentIsOpen();
      if !rejected {
        ws := Some(|sockets|);
        sockets := sockets + [Socket(Connecting, Some(caller))];
      }
    }

    /** `this._ws?.close()` */
    method CloseCurrent()
      modifies this`sockets
      ensures Abs() == WsClose(old(Abs()))
    {
      if ws.Some? && ws.value < |sockets| && (sockets[ws.value].ready.Open? || sockets[ws.value].ready.Connecting?) {
        sockets := WithReady(sockets, ws.value, Closing);
      }
    }

    /** `close()` up to its `await` */
    method BeginClose(purpose: Purpose, now: nat)
      modifies this
      ensures Abs() == ClosingFor(old(Abs()), purpose, now)
    {
      if pingTimeout.Some? {
        pings := pings - {pingTimeout.value};
      }
      armed := false;
      closes := closes[next := Close(ws, now + WS_CLOSE_TIMEOUT_MS, purpose, false)];
      next := next + 1;
      shouldReconnect := false;
      CloseCurrent();
    }

    /** `close()` after its `await` */
    method FinishClose(c: nat)
      modifies this
      ensures Abs() == CloseResumed(old(Abs()), c)
    {
      closes, ws := closes - {c}, None;
    }

    method Send(f: Frame)
      modifies this`sent
      ensures Abs() == Sent(old(Abs()), f)
    {
      var isOpen := CurrentIsOpen();
      if isOpen {
        sent := sent + [f];
      }
    }

    /** `loadCerts()` up to its `await`: tells whether `receive()` throws at once. */
    method BeginLoadCerts(caller: Caller, now: nat) returns (rejected: bool)
      modifies this
      ensures Abs() == LoadingCerts(old(Abs()), caller, now, timeout)
      ensures rejected == !IsOpen(old(Abs()))
    {
      Send(ReadConfiguration());
      var isOpen := CurrentIsOpen();
      if isOpen {
        listeners := listeners + {ws.value};
        receives := receives[next := Awaiting(ws.value, now + Delay(timeout), caller)];
        next := next + 1;
      }
      rejected := !isOpen;
    }

    method OnOpen(k: nat) returns (opener: Option<Caller>)
      requires k < |sockets|
      modifies this
      ensures Abs() == SocketOpened(old(Abs()), k) && opener == old(sockets[k].opener)
    {
      opener := sockets[k].opener;
      sockets := sockets[k := Socket(ReadyState.Open, None)];
    }

    method OnClose(k: nat, now: nat)
      requires k < |sockets|
      modifies this
      ensures Abs() == SocketClosed(old(Abs()), k, now, timeout)
    {
      sockets := WithReady(sockets, k, Closed);
      if shouldReconnect {
        OnPing(now);
      }
      closes := Settle(closes, k);
    }

    method OnError(k: nat)
      requires k < |sockets|
      modifies this
      ensures Abs() == SocketFailed(old(Abs()), k)
    {
      sockets := WithReady(sockets, k, Closing);
      closes := Settle(closes, k);
      CloseCurrent();
    }

    /** The `once('message')` listeners of `receive()` on a text that parses. */
    method OnMessageOnce(k: nat, msg: Value)
      modifies this
      ensures Abs() == MessageReceived(old(Abs()), k, msg)
    {
      listeners := listeners - {k};
      receives := map r | r in receives :: Delivered(receives[r], k, msg);
    }

    method OnReceiveTimer(r: nat)
      requires r in receives
      modifies this
      ensures Abs() == ReceiveTimedOut(old(Abs()), r)
    {
      receives := receives[r := Rejected(receives[r].caller)];
    }

    method FinishReceive(r: nat) returns (received: Receive)
      requires r in receives
      modifies this
      ensures Abs() == ReceiveResumed(old(Abs()), r) && received == old(receives[r])
    {
      received := receives[r];
      receives := receives - {r};
    }

    method OnCloseTimer(c: nat)
      requires c in closes
      modifies this
      ensures Abs() == CloseTimedOut(old(Abs()), c)
    {
      closes := closes[c := closes[c].(settled := true)];
    }

    /** The watchdog callback up to its first `await` */
    method OnPingTimer(t: nat, now: nat) returns (rejected: bool)
      modifies this
      ensures Abs() == PingTimedOut(old(Abs()), t, now, timeout)
      ensures rejected == IsOpen(old(Abs()))
    {
      pings := pings - {t};
      rejected := Open(Watchdog, now);
    }
  }
}
