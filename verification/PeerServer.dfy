/**
 * One peer: src/domain/PeerServer.ts with the components it owns. Each function is one turn of the event loop, from the
 * event that starts it to the point where the last promise continuation it runs awaits something else.
 */
module Peers {
  import opened Prelude
  import opened Codec
  import opened Protocol
  import opened Ping
  import Auth
  import Http
  import Control

  datatype Config = Config(
    auth: Auth.Config,
    timeout: int,
    checkPeerJwsInterval: int,
    retryStartSec: int,
    retryDnsSec: int,
    peerEndpoint: string,
    pingCallbackEndpoint: string)

  /** The pending timer of `retryStartPm4ml`, with the failure it follows. */
  datatype Retry = Retry(due: nat, failedAt: nat, dns: bool)

  datatype StopPhase = Running | ClosingAgent | ClosingServer | Stopped

  /** The peer's own fields: `isReady`, `retryStartTimer`, `peerJwsRefreshLoopTimer`, and its pending timers. */
  datatype OwnState = OwnState(
    isReady: bool,
    retryStartTimer: Option<nat>,
    retries: map<nat, Retry>,
    peerJwsRefreshLoopTimer: Option<nat>,
    jwsLoops: map<nat, nat>,
    jwsListeners: bool,
    started: bool,
    phase: StopPhase,
    next: nat)

  datatype PeerState = PeerState(
    auth: Auth.AuthState,
    agent: Control.AgentState,
    http: Http.HttpState,
    ping: PingState,
    own: OwnState)

  const INITIAL_PEER :=
    PeerState(Auth.INITIAL_AUTH, Control.INITIAL_AGENT, Http.INITIAL_HTTP, INITIAL_PING,
              OwnState(false, None, map[], None, map[], true, false, Running, 0))

  /** What a turn emits to the listeners of the peer. A crash is an exception or rejection that nothing catches. */
  datatype Out = Nothing | PingAuthDetails(details: StateEvent) | PeerJws(peerJws: Option<Value>)

  datatype Turn = Turn(peer: PeerState, out: Out, crashed: bool)

  function Quiet(p: PeerState): Turn {
    Turn(p, Nothing, false)
  }

  // ---- Parts of turns ---------------------------------------------------------------------------------------------

  /** `emitServerStateEvent` */
  function EmitServerState(p: PeerState, e: StateEvent, now: nat): PeerState {
    p.(http := Http.OnServerState(p.http, e, now))
  }

  /** `startPm4mlPart` up to its first `await` */
  function StartAttempt(p: PeerState, now: nat): PeerState {
    p.(auth := Auth.Begin(p.auth, now))
  }

  /** `start()` up to its first `await` */
  function StartBegun(p: PeerState, now: nat): PeerState {
    StartAttempt(p.(own := p.own.(started := true)), now)
  }

  /** `stopPm4mlPart` up to its `await` */
  function StopPm4mlPart(p: PeerState, purpose: Control.Purpose, now: nat): PeerState {
    p.(auth := Auth.Halt(p.auth),
    own := p.own.(jwsLoops := Clear(p.own.jwsLoops, p.own.peerJwsRefreshLoopTimer)),
    agent := Control.ClosingFor(p.agent, purpose, now))
  }

  /** A start attempt throws: `retryStartPm4ml` begins to clean up. */
  function FailAttempt(p: PeerState, dns: bool, now: nat): PeerState {
    StopPm4mlPart(p, Control.ForRetry(dns, now), now)
  }

  /** `loadCerts()` throws: a start attempt is retried, a watchdog callback leaves the rejection unhandled. */
  function LoadFailed(p: PeerState, caller: Control.Caller, now: nat): Turn {
    if caller.Starter? then Quiet(FailAttempt(p, false, now)) else Turn(p, Nothing, true)
  }

  /** `initControlAgent` up to its first `await` */
  function InitControlAgent(p: PeerState, now: nat, cfg: Config): PeerState {
    var p1 := p.(agent := Control.Opened(p.agent, Control.Starter, now, cfg.timeout));
    if Control.IsOpen(p.agent) then FailAttempt(p1, false, now) else p1
  }

  /** The end of a successful start attempt. */
  function BecomeReady(p: PeerState, now: nat, cfg: Config): PeerState {
    p.(own := p.own.(
        jwsLoops := p.own.jwsLoops[p.own.next := now + Delay(cfg.checkPeerJwsInterval)],
        peerJwsRefreshLoopTimer := Some(p.own.next),
        next := p.own.next + 1,
        isReady := true))
  }

  function RetryDelay(dns: bool, cfg: Config): nat {
    Delay(1000 * if dns then cfg.retryDnsSec else cfg.retryStartSec)
  }

  // ---- Turns ------------------------------------------------------------------------------------------------------

  function TokenFetched(p: PeerState, f: nat, r: Auth.Response, now: nat, cfg: Config): Turn
    requires f in p.auth.fetches
  {
    var d := Auth.GetOidcToken(r);
    var e := StateEvent(Some(Auth.EmittedToken(d)), None);
    var p1 := EmitServerState(p.(auth := Auth.FetchDone(p.auth, f, r, now, cfg.auth)), e, now);
    var error := Auth.UpdateError(d);
    var p2 := if !p.auth.fetches[f].awaited then p1
              else if error.Some? then FailAttempt(p1, Auth.IsDnsRelated(error.value), now)
              else InitControlAgent(p1, now, cfg);
    Turn(p2, PingAuthDetails(e), false)
  }

  function SocketOpened(p: PeerState, k: nat, now: nat, cfg: Config): Turn
    requires k < |p.agent.sockets|
  {
    var opener := p.agent.sockets[k].opener;
    var p1 := p.(agent := Control.SocketOpened(p.agent, k));
    if opener.None? then Quiet(p1)
    else if Control.IsOpen(p1.agent) then
      Quiet(p1.(agent := Control.LoadingCerts(p1.agent, opener.value, now, cfg.timeout)))
    else LoadFailed(p1, opener.value, now)
  }

  /**
   * A message: first `_handle`, then the `once` listener of `receive()`, if one is left on the socket. Its parser is
   * not guarded, and it is left there by a `receive()` that timed out as well.
   */
  function MessageArrived(p: PeerState, k: nat, msg: Option<Value>, now: nat): Turn {
    var action := Handle(msg);
    if action.Throws? || (msg.None? && k in p.agent.listeners) then Turn(p, Nothing, true)
    else
      var p1 := match action
                case OnCert(certs) => EmitServerState(p, StateEvent(None, Some(certs)), now)
                case Reply(kind, id) => p.(agent := Control.Sent(p.agent, NotifyError(kind, id)))
                case _ => p;
      var out := match action
                 case OnCert(certs) => PingAuthDetails(StateEvent(None, Some(certs)))
                 case OnPeerJws(peerJws) => PeerJws(peerJws)
                 case _ => Nothing;
      Turn(if msg.Some? then p1.(agent := Control.MessageReceived(p1.agent, k, msg.value)) else p1, out, false)
  }

  /** `loadCerts` after its `await` */
  function ReceiveResumed(p: PeerState, r: nat, now: nat, cfg: Config): Turn
    requires r in p.agent.receives && !p.agent.receives[r].Awaiting?
  {
    var received := p.agent.receives[r];
    var p1 := p.(agent := Control.ReceiveResumed(p.agent, r));
    if received.Received? && IsCertsPayload(received.msg) then
      var e := StateEvent(None, Some(ExtractCerts(received.msg)));
      var p2 := EmitServerState(p1, e, now);
      Turn(if received.caller.Starter? then BecomeReady(p2, now, cfg) else p2, PingAuthDetails(e), false)
    else LoadFailed(p1, received.caller, now)
  }

  /** `stopPm4mlPart` after its `await`, and what it was called for. */
  function CloseResumed(p: PeerState, c: nat, now: nat, cfg: Config): PeerState
    requires c in p.agent.closes
  {
    var own := p.own.(isReady := false);
    PeerState(
      p.auth, Control.CloseResumed(p.agent, c), p.http, p.ping,
      match p.agent.closes[c].purpose
      case ForRetry(dns, failedAt) =>
        own.(retries := own.retries[own.next := Retry(now + RetryDelay(dns, cfg), failedAt, dns)],
        retryStartTimer := Some(own.next),
        next := own.next + 1)
      case ForStop => own.(phase := ClosingServer))
  }

  /** `stop()` up to its first `await` */
  function StopBegun(p: PeerState, now: nat): PeerState {
    var own := p.own.(retries := Clear(p.own.retries, p.own.retryStartTimer),
      jwsListeners := false, phase := ClosingAgent);
    StopPm4mlPart(p.(own := own), Control.ForStop, now)
  }

  /** `stop()` after the HTTP server has stopped */
  function StopEnded(p: PeerState): PeerState {
    p.(http := Http.Stopped(p.http), own := p.own.(isReady := false, phase := Stopped))
  }

  function RetryFires(p: PeerState, t: nat, now: nat): PeerState {
    StartAttempt(p.(own := p.own.(retries := p.own.retries - {t})), now)
  }

  function JwsLoopFires(p: PeerState, t: nat, now: nat, cfg: Config): PeerState {
    p.(own := p.own.(jwsLoops := p.own.jwsLoops[t := now + Delay(cfg.checkPeerJwsInterval)]),
    agent := Control.Sent(p.agent, ReadPeerJws()))
  }

  /** The watchdog fires: `open()` is rejected, and the rejection unhandled, when the current socket is still open. */
  function PingTimedOut(p: PeerState, t: nat, now: nat, cfg: Config): Turn {
    Turn(p.(agent := Control.PingTimedOut(p.agent, t, now, cfg.timeout)), Nothing, Control.IsOpen(p.agent))
  }

  // ---- Events -----------------------------------------------------------------------------------------------------

  datatype Event =
    | Start
    | Stop
    | ServerStopped
    | TokenFetch(fetch: nat, response: Auth.Response)
    | TokenTimer(timer: nat)
    | SocketOpen(socket: nat)
    | SocketPing(socket: nat)
    | SocketClose(socket: nat)
    | SocketError(socket: nat)
    | SocketMessage(socket: nat, msg: Option<Value>)
    | PingTimer(timer: nat)
    | ReceiveTimer(receive: nat)
    | ResumeReceive(receive: nat)
    | CloseTimer(close: nat)
    | ResumeClose(close: nat)
    | RetryTimer(timer: nat)
    | JwsTimer(timer: nat)
    | ShutdownTimer(agent: nat)

  predicate Alive(s: Control.AgentState, k: nat) {
    k < |s.sockets| && !s.sockets[k].ready.Closed?
  }

  predicate Talking(s: Control.AgentState, k: nat) {
    k < |s.sockets| && (s.sockets[k].ready.Open? || s.sockets[k].ready.Closing?)
  }

  /** What the environment may do: timers fire when due or later, sockets and requests answer in any order. */
  predicate CanHappen(p: PeerState, ev: Event, now: nat) {
    match ev
    case Start => !p.own.started
    case Stop => p.own.started && p.own.phase.Running?
    case ServerStopped => p.own.phase.ClosingServer?
    case TokenFetch(f, r) => f in p.auth.fetches && (r.Body? ==> r.issuedAt <= now)
    case TokenTimer(t) => t in p.auth.timers && p.auth.timers[t].due <= now
    case SocketOpen(k) => k < |p.agent.sockets| && p.agent.sockets[k].ready.Connecting?
    case SocketPing(k) => Talking(p.agent, k)
    case SocketClose(k) => Alive(p.agent, k)
    case SocketError(k) => Alive(p.agent, k)
    case SocketMessage(k, _) => Talking(p.agent, k)
    case PingTimer(t) => t in p.agent.watch.pings && p.agent.watch.pings[t] <= now
    case ReceiveTimer(r) => r in p.agent.receives && p.agent.receives[r].Awaiting? && p.agent.receives[r].due <= now
    case ResumeReceive(r) => r in p.agent.receives && !p.agent.receives[r].Awaiting?
    case CloseTimer(c) => c in p.agent.closes && !p.agent.closes[c].settled && p.agent.closes[c].due <= now
    case ResumeClose(c) => c in p.agent.closes && p.agent.closes[c].settled
    case RetryTimer(t) => t in p.own.retries && p.own.retries[t].due <= now
    case JwsTimer(t) => t in p.own.jwsLoops && p.own.jwsLoops[t] <= now
    case ShutdownTimer(a) => Http.MayFire(p.http, a, now)
  }

  function TakeTurn(p: PeerState, ev: Event, now: nat, cfg: Config): Turn
    requires CanHappen(p, ev, now)
  {
    match ev
    case Start => Quiet(StartBegun(p, now))
    case Stop => Quiet(StopBegun(p, now))
    case ServerStopped => Quiet(StopEnded(p))
    case TokenFetch(f, r) => TokenFetched(p, f, r, now, cfg)
    case TokenTimer(t) => Quiet(p.(auth := Auth.TimerFires(p.auth, t)))
    case SocketOpen(k) => SocketOpened(p, k, now, cfg)
    case SocketPing(k) => Quiet(p.(agent := Control.PingReceived(p.agent, now, cfg.timeout)))
    case SocketClose(k) => Quiet(p.(agent := Control.SocketClosed(p.agent, k, now, cfg.timeout)))
    case SocketError(k) => Quiet(p.(agent := Control.SocketFailed(p.agent, k)))
    case SocketMessage(k, msg) => MessageArrived(p, k, msg, now)
    case PingTimer(t) => PingTimedOut(p, t, now, cfg)
    case ReceiveTimer(r) => Quiet(p.(agent := Control.ReceiveTimedOut(p.agent, r)))
    case ResumeReceive(r) => ReceiveResumed(p, r, now, cfg)
    case CloseTimer(c) => Quiet(p.(agent := Control.CloseTimedOut(p.agent, c)))
    case ResumeClose(c) => Quiet(CloseResumed(p, c, now, cfg))
    case RetryTimer(t) => Quiet(RetryFires(p, t, now))
    case JwsTimer(t) => Quiet(JwsLoopFires(p, t, now, cfg))
    case ShutdownTimer(a) => Quiet(p.(http := Http.ShutdownFires(p.http, a)))
  }

  // ---- What the other peer's events do to this one ----------------------------------------------------------------

  /** `updatePingAuthDetails` */
  function UpdatePing(p: PeerState, details: StateEvent): PeerState {
    p.(ping := Merge(p.ping, details))
  }

  /** `propagatePeerJWSEvent` */
  function Propagate(p: PeerState, peerJws: Option<Value>): PeerState {
    if p.own.isReady then p.(agent := Control.Sent(p.agent, NotifyPeerJws(peerJws))) else p
  }

  // ---- The class --------------------------------------------------------------------------------------------------

  class PeerServer {
    const cfg: Config
    const authClient: Auth.AuthClient
    const controlAgent: Control.ControlAgent
    const httpServer: Http.HttpServer
    const pingService: InboundPingService
    var isReady: bool
    var retryStartTimer: Option<nat>
    var peerJwsRefreshLoopTimer: Option<nat>
    // Timers handed to the event loop, and whether the adapter still listens for JWS events.
    var retries: map<nat, Retry>
    var jwsLoops: map<nat, nat>
    var jwsListeners: bool
    var started: bool
    var phase: StopPhase
    var next: nat

    ghost function Own(): OwnState reads this {
      OwnState(isReady, retryStartTimer, retries, peerJwsRefreshLoopTimer, jwsLoops, jwsListeners, started, phase, next)
    }

    ghost function Abs(): PeerState reads this, authClient, controlAgent, httpServer, pingService {
      PeerState(authClient.Abs(), controlAgent.Abs(), httpServer.Abs(), pingService.Abs(), Own())
    }

    /** The objects a turn of this peer may change. */
    ghost function Repr(): set<object> {
      {this, authClient, controlAgent, httpServer, pingService}
    }

    ghost predicate Valid() {
      authClient.cfg == cfg.auth && controlAgent.timeout == cfg.timeout
    }

    constructor (cfg: Config)
      ensures Valid() && this.cfg == cfg && fresh(Repr()) && Abs() == INITIAL_PEER
    {
      this.cfg := cfg;
      authClient := new Auth.AuthClient(cfg.auth);
      controlAgent := new Control.ControlAgent(cfg.timeout);
      httpServer := new Http.HttpServer();
      pingService := new InboundPingService();
      isReady, retryStartTimer, peerJwsRefreshLoopTimer, retries, jwsLoops := false, None, None, map[], map[];
      jwsListeners, started, phase, next := true, false, Running, 0;
    }

    /** `startPm4mlPart` up to its first `await` */
    method BeginAttempt(now: nat)
      modifies authClient
      ensures Abs() == StartAttempt(old(Abs()), now)
    {
      authClient.StartAccessTokenUpdates(now);
    }

    /** `stopPm4mlPart` up to its `await` */
    method BeginStopPm4mlPart(purpose: Control.Purpose, now: nat)
      modifies this`jwsLoops, authClient, controlAgent
      ensures Abs() == StopPm4mlPart(old(Abs()), purpose, now)
    {
      authClient.StopUpdates();
      if peerJwsRefreshLoopTimer.Some? {
        jwsLoops := jwsLoops - {peerJwsRefreshLoopTimer.value};
      }
      controlAgent.BeginClose(purpose, now);
    }

    method Start(now: nat)
      modifies this, authClient
      ensures Abs() == StartBegun(old(Abs()), now)
    {
      started := true;
      BeginAttempt(now);
    }

    method Stop(now: nat)
      modifies this, authClient, controlAgent
      ensures Abs() == StopBegun(old(Abs()), now)
    {
      if retryStartTimer.Some? {
        retries := retries - {retryStartTimer.value};
      }
      jwsListeners, phase := false, ClosingAgent;
      BeginStopPm4mlPart(Control.ForStop, now);
    }

    method FinishStop()
      modifies this, httpServer
      ensures Abs() == StopEnded(old(Abs()))
    {
      httpServer.FinishStop();
      isReady, phase := false, Stopped;
    }

    /** The token request settles: `getAccessToken` resumes if it awaited it, and goes on to `initControlAgent`. */
    method OnTokenFetch(f: nat, r: Auth.Response, now: nat) returns (out: Out)
      requires Valid() && f in authClient.fetches
      modifies Repr()
      ensures Turn(Abs(), out, false) == TokenFetched(old(Abs()), f, r, now, cfg)
    {
      var awaited := authClient.fetches[f].awaited;
      var token, error := authClient.OnFetch(f, r, now);
      var e := StateEvent(Some(token), None);
      httpServer.EmitServerState(e, now);
      if awaited {
        if error.Some? {
          BeginStopPm4mlPart(Control.ForRetry(Auth.IsDnsRelated(error.value), now), now);
        } else {
          var rejected := controlAgent.Open(Control.Starter, now);
          if rejected {
            BeginStopPm4mlPart(Control.ForRetry(false, now), now);
          }
        }
      }
      out := PingAuthDetails(e);
    }

    method OnSocketOpen(k: nat, now: nat) returns (crashed: bool)
      requires Valid() && k < |controlAgent.sockets|
      modifies Repr()
      ensures Turn(Abs(), Nothing, crashed) == SocketOpened(old(Abs()), k, now, cfg)
    {
      var opener := controlAgent.OnOpen(k);
      crashed := false;
      if opener.Some? {
        var rejected := controlAgent.BeginLoadCerts(opener.value, now);
        if rejected {
          crashed := opener.value.Watchdog?;
          if !crashed {
            BeginStopPm4mlPart(Control.ForRetry(false, now), now);
          }
        }
      }
    }

    method OnMessage(k: nat, msg: Option<Value>, now: nat) returns (out: Out, crashed: bool)
      modifies Repr()
      ensures Turn(Abs(), out, crashed) == MessageArrived(old(Abs()), k, msg, now)
    {
      out := Nothing;
      var action := Handle(msg);
      crashed := action.Throws? || (msg.None? && k in controlAgent.listeners);
      if crashed {
        return;
      }
      match action {
        case OnCert(certs) =>
          httpServer.EmitServerState(StateEvent(None, Some(certs)), now);
          out := PingAuthDetails(StateEvent(None, Some(certs)));
        case OnPeerJws(peerJws) => out := PeerJws(peerJws);
        case Reply(kind, id) => controlAgent.Send(NotifyError(kind, id));
        case _ =>
      }
      if msg.Some? {
        controlAgent.OnMessageOnce(k, msg.value);
      }
    }

    /** The rest of `startPm4mlPart`, once the certificates are loaded */
    method FinishAttempt(now: nat)
      modifies this
      ensures Abs() == BecomeReady(old(Abs()), now, cfg)
    {
      jwsLoops := jwsLoops[next := now + Delay(cfg.checkPeerJwsInterval)];
      peerJwsRefreshLoopTimer, next, isReady := Some(next), next + 1, true;
    }

    /** `loadCerts` resumes. */
    method OnReceived(r: nat, now: nat) returns (out: Out, crashed: bool)
      requires r in controlAgent.receives && !controlAgent.receives[r].Awaiting?
      modifies Repr()
      ensures Turn(Abs(), out, crashed) == ReceiveResumed(old(Abs()), r, now, cfg)
    {
      var received := controlAgent.FinishReceive(r);
      out, crashed := Nothing, false;
      if received.Received? && IsCertsPayload(received.msg) {
        var e := StateEvent(None, Some(ExtractCerts(received.msg)));
        httpServer.EmitServerState(e, now);
        out := PingAuthDetails(e);
        if received.caller.Starter? {
          FinishAttempt(now);
        }
      } else if received.caller.Starter? {
        BeginStopPm4mlPart(Control.ForRetry(false, now), now);
      } else {
        crashed := true;
      }
    }

    /** `stopPm4mlPart` resumes. */
    method OnClosed(c: nat, now: nat)
      requires c in controlAgent.closes
      modifies this, controlAgent
      ensures Abs() == CloseResumed(old(Abs()), c, now, cfg)
    {
      var purpose := controlAgent.closes[c].purpose;
      controlAgent.FinishClose(c);
      isReady := false;
      match purpose {
        case ForRetry(dns, failedAt) =>
          retries := retries[next := Retry(now + RetryDelay(dns, cfg), failedAt, dns)];
          retryStartTimer, next := Some(next), next + 1;
        case ForStop => phase := ClosingServer;
      }
    }

    method OnRetryTimer(t: nat, now: nat)
      modifies this, authClient
      ensures Abs() == RetryFires(old(Abs()), t, now)
    {
      retries := retries - {t};
      BeginAttempt(now);
    }

    method OnJwsTimer(t: nat, now: nat)
      modifies this, controlAgent
      ensures Abs() == JwsLoopFires(old(Abs()), t, now, cfg)
    {
      jwsLoops := jwsLoops[t := now + Delay(cfg.checkPeerJwsInterval)];
      controlAgent.Send(ReadPeerJws());
    }

    method PropagatePeerJWSEvent(peerJws: Option<Value>) returns (isSent: bool)
      modifies controlAgent
      ensures Abs() == Propagate(old(Abs()), peerJws) && isSent == old(isReady)
    {
      isSent := isReady;
      if isReady {
        controlAgent.Send(NotifyPeerJws(peerJws));
      }
    }

    method UpdatePingAuthDetails(details: StateEvent)
      modifies pingService
      ensures Abs() == UpdatePing(old(Abs()), details)
    {
      pingService.UpdateAuthDetails(details);
    }

    /** An event of one of the sockets. */
    method TakeSocketEvent(ev: Event, now: nat) returns (out: Out, crashed: bool)
      requires Valid() && CanHappen(Abs(), ev, now)
      requires ev.SocketOpen? || ev.SocketPing? || ev.SocketClose? || ev.SocketError? || ev.SocketMessage?
      modifies Repr()
      ensures Turn(Abs(), out, crashed) == TakeTurn(old(Abs()), ev, now, cfg)
    {
      out, crashed := Nothing, false;
      match ev {
        case SocketOpen(k) => crashed := OnSocketOpen(k, now);
        case SocketPing(_) => controlAgent.OnPing(now);
        case SocketClose(k) => controlAgent.OnClose(k, now);
        case SocketError(k) => controlAgent.OnError(k);
        case SocketMessage(k, msg) => out, crashed := OnMessage(k, msg, now);
      }
    }

    /** A timer of the control agent fires, or one of its promises resumes. */
    method TakePromiseEvent(ev: Event, now: nat) returns (out: Out, crashed: bool)
      requires Valid() && CanHappen(Abs(), ev, now)
      requires ev.PingTimer? || ev.ReceiveTimer? || ev.ResumeReceive? || ev.CloseTimer? || ev.ResumeClose?
      modifies Repr()
      ensures Turn(Abs(), out, crashed) == TakeTurn(old(Abs()), ev, now, cfg)
    {
      out, crashed := Nothing, false;
      match ev {
        case PingTimer(t) => crashed := controlAgent.OnPingTimer(t, now);
        case ReceiveTimer(r) => controlAgent.OnReceiveTimer(r);
        case ResumeReceive(r) => out, crashed := OnReceived(r, now);
        case CloseTimer(c) => controlAgent.OnCloseTimer(c);
        case ResumeClose(c) => OnClosed(c, now);
      }
    }

    /** One turn of the event loop. */
    method Take(ev: Event, now: nat) returns (out: Out, crashed: bool)
      requires Valid() && CanHappen(Abs(), ev, now)
      modifies Repr()
      ensures Turn(Abs(), out, crashed) == TakeTurn(old(Abs()), ev, now, cfg)
    {
      if ev.SocketOpen? || ev.SocketPing? || ev.SocketClose? || ev.SocketError? || ev.SocketMessage? {
        out, crashed := TakeSocketEvent(ev, now);
        return;
      }
      if ev.PingTimer? || ev.ReceiveTimer? || ev.ResumeReceive? || ev.CloseTimer? || ev.ResumeClose? {
        out, crashed := TakePromiseEvent(ev, now);
        return;
      }
      out, crashed := Nothing, false;
      match ev {
        case Start => Start(now);
        case Stop => Stop(now);
        case ServerStopped => FinishStop();
        case TokenFetch(f, r) => out := OnTokenFetch(f, r, now);
        case TokenTimer(t) => authClient.OnTimer(t);
        case RetryTimer(t) => OnRetryTimer(t, now);
        case JwsTimer(t) => OnJwsTimer(t, now);
        case ShutdownTimer(a) => httpServer.OnShutdownTimer(a);
      }
    }
  }
}
