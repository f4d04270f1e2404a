/** What every turn keeps, component by component. */
module Invariants {
  import opened Prelude
  import opened Codec
  import opened Protocol
  import opened Ping
  import opened Peers
  import Auth
  import Http
  import Control

  // ---- The HTTP server sees exactly what is emitted ---------------------------------------------------------------

  /**
   * The credential state changes by the emitted update, by a shutdown timer, or by the end of `stop`, and by nothing
   * else.
   */
  lemma HttpTurn(p: PeerState, ev: Event, now: nat, cfg: Config)
    requires CanHappen(p, ev, now)
    ensures var turn := TakeTurn(p, ev, now, cfg);
            turn.peer.http ==
            if turn.out.PingAuthDetails? then Http.OnServerState(p.http, turn.out.details, now)
            else if ev.ShutdownTimer? then Http.ShutdownFires(p.http, ev.agent)
            else if ev.ServerStopped? then Http.Stopped(p.http)
            else p.http
  {
  }

  /** A turn never touches the peer's own ping service: only the other peer's updates do. */
  lemma PingTurn(p: PeerState, ev: Event, now: nat, cfg: Config)
    requires CanHappen(p, ev, now)
    ensures TakeTurn(p, ev, now, cfg).peer.ping == p.ping
  {
  }

  // ---- The token refresh ------------------------------------------------------------------------------------------

  ghost predicate AuthInv(s: Auth.AuthState) {
    Auth.LoopsConserved(s) && Auth.LastLoopKnown(s)
  }

  /** The new refresh state of a turn, before the `stopUpdates` of a failing start attempt. */
  function AuthBeforeHalt(p: PeerState, ev: Event, now: nat, cfg: Config): Auth.AuthState
    requires CanHappen(p, ev, now)
  {
    match ev
    case Start => Auth.Begin(p.auth, now)
    case RetryTimer(_) => Auth.Begin(p.auth, now)
    case TokenTimer(t) => Auth.TimerFires(p.auth, t)
    case TokenFetch(f, r) => Auth.FetchDone(p.auth, f, r, now, cfg.auth)
    case _ => p.auth
  }

  lemma AuthTurn(p: PeerState, ev: Event, now: nat, cfg: Config)
    requires CanHappen(p, ev, now)
    ensures TakeTurn(p, ev, now, cfg).peer.auth == AuthBeforeHalt(p, ev, now, cfg)
         || TakeTurn(p, ev, now, cfg).peer.auth == Auth.Halt(AuthBeforeHalt(p, ev, now, cfg))
  {
  }

  lemma AuthBeforeHaltKept(p: PeerState, ev: Event, now: nat, cfg: Config)
    requires CanHappen(p, ev, now) && AuthInv(p.auth)
    ensures AuthInv(AuthBeforeHalt(p, ev, now, cfg))
    ensures Auth.RefreshAhead(p.auth) && (ev.TokenFetch? ==> Auth.LongLived(ev.response)) ==>
              Auth.RefreshAhead(AuthBeforeHalt(p, ev, now, cfg))
  {
    match ev
    case Start => Auth.BeginKeepsLoops(p.auth, now); Auth.BeginKeepsAhead(p.auth, now);
    case RetryTimer(_) => Auth.BeginKeepsLoops(p.auth, now); Auth.BeginKeepsAhead(p.auth, now);
    case TokenTimer(t) => Auth.TimerFiresKeepsLoops(p.auth, t); Auth.TimerFiresKeepsAhead(p.auth, t);
    case TokenFetch(f, r) =>
      Auth.FetchDoneKeepsLoops(p.auth, f, r, now, cfg.auth);
      Auth.FetchDoneKeepsAhead(p.auth, f, r, now, cfg.auth);
    case _ =>
  }

  /**
   * No turn loses or duplicates a refresh loop, and with long-lived tokens the next refresh stays ahead of the expiry.
   */
  lemma AuthKept(p: PeerState, ev: Event, now: nat, cfg: Config)
    requires CanHappen(p, ev, now) && AuthInv(p.auth)
    ensures AuthInv(TakeTurn(p, ev, now, cfg).peer.auth)
    ensures Auth.RefreshAhead(p.auth) && (ev.TokenFetch? ==> Auth.LongLived(ev.response)) ==>
              Auth.RefreshAhead(TakeTurn(p, ev, now, cfg).peer.auth)
  {
    var a := AuthBeforeHalt(p, ev, now, cfg);
    AuthTurn(p, ev, now, cfg);
    AuthBeforeHaltKept(p, ev, now, cfg);
    Auth.StopUpdatesEnds(a);
    Auth.HaltKeepsAhead(a);
  }

  // ---- The HTTPS agents -------------------------------------------------------------------------------------------

  ghost predicate HttpInv(p: PeerState, now: nat) {
    && Http.Inv(p.http)
    && Http.DueAfterRotation(p.http, now)
    && (p.http.listening <==> !p.own.phase.Stopped?)
  }

  lemma PhaseTurn(p: PeerState, ev: Event, now: nat, cfg: Config)
    requires CanHappen(p, ev, now)
    ensures var phase := TakeTurn(p, ev, now, cfg).peer.own.phase;
            || phase == p.own.phase
            || (ev.Stop? && phase == ClosingAgent)
            || (ev.ServerStopped? && phase == Stopped)
            || (ev.ResumeClose? && p.agent.closes[ev.close].purpose.ForStop? && phase == ClosingServer)
    ensures ev.ServerStopped? ==> TakeTurn(p, ev, now, cfg).peer.own.phase.Stopped?
  {
  }

  // ---- The promises of the control agent --------------------------------------------------------------------------

  /** The failure of a start attempt in a turn: `Some(dns)` tells whether its error is DNS-related. */
  function FailureOf(p: PeerState, ev: Event): Option<bool> {
    match ev
    case TokenFetch(f, r) =>
      if f !in p.auth.fetches || !p.auth.fetches[f].awaited then None
      else if !Auth.BringsToken(r) then Some(Auth.IsDnsFailure(r))
      else if Control.IsOpen(p.agent) then Some(false)
      else None
    case SocketOpen(k) =>
      if k < |p.agent.sockets| && p.agent.sockets[k].opener == Some(Control.Starter)
         && !Control.IsOpen(Control.SocketOpened(p.agent, k)) then Some(false)
      else None
    case ResumeReceive(r) =>
      if r in p.agent.receives && p.agent.receives[r].caller.Starter?
         && !(p.agent.receives[r].Received? && IsCertsPayload(p.agent.receives[r].msg)) then Some(false)
      else None
    case _ => None
  }

  /** The one `close()` call a turn may make is its last step; it takes the newest handle. */
  ghost predicate ClosesAdded(s: Control.AgentState, s': Control.AgentState, purpose: Control.Purpose, now: nat) {
    && s'.next > s.next
    && s'.next - 1 in s'.closes
    && var c := s'.closes[s'.next - 1];
    && s'.closes == s.closes[s'.next - 1 := c]
    && c.due == now + 5000 && !c.settled
    && c.purpose == purpose
  }

  /** `close()` is called when a start attempt fails, with its verdict on the error, and otherwise not. */
  ghost predicate ClosesIfFailed(s: Control.AgentState, s': Control.AgentState, failure: Option<bool>, now: nat) {
    && s'.next >= s.next
    && if failure.None? then s'.closes == s.closes
       else ClosesAdded(s, s', Control.ForRetry(failure.value, now), now)
  }

  lemma TokenFetchedCloses(p: PeerState, f: nat, r: Auth.Response, now: nat, cfg: Config)
    requires f in p.auth.fetches
    ensures ClosesIfFailed(p.agent, TokenFetched(p, f, r, now, cfg).peer.agent, FailureOf(p, TokenFetch(f, r)), now)
  {
  }

  lemma SocketOpenedCloses(p: PeerState, k: nat, now: nat, cfg: Config)
    requires k < |p.agent.sockets|
    ensures ClosesIfFailed(p.agent, Peers.SocketOpened(p, k, now, cfg).peer.agent, FailureOf(p, SocketOpen(k)), now)
  {
  }

  lemma ReceiveResumedCloses(p: PeerState, r: nat, now: nat, cfg: Config)
    requires r in p.agent.receives && !p.agent.receives[r].Awaiting?
    ensures ClosesIfFailed(p.agent, Peers.ReceiveResumed(p, r, now, cfg).peer.agent,
                           FailureOf(p, ResumeReceive(r)), now)
  {
  }

  lemma AttemptCloses(p: PeerState, ev: Event, now: nat, cfg: Config)
    requires CanHappen(p, ev, now) && (ev.TokenFetch? || ev.SocketOpen? || ev.ResumeReceive?)
    ensures ClosesIfFailed(p.agent, TakeTurn(p, ev, now, cfg).peer.agent, FailureOf(p, ev), now)
  {
    match ev
    case TokenFetch(f, r) => TokenFetchedCloses(p, f, r, now, cfg);
    case SocketOpen(k) => SocketOpenedCloses(p, k, now, cfg);
    case ResumeReceive(r) => ReceiveResumedCloses(p, r, now, cfg);
  }

  /** What becomes of the `close()` promises in a turn: an event settles some, one resumes, or `close()` is called. */
  ghost predicate ClosesChange(
    s: Control.AgentState, s': Control.AgentState, ev: Event, failure: Option<bool>, now: nat)
  {
    match ev
    case SocketClose(k) => s'.next >= s.next && s'.closes == Control.Settle(s.closes, k)
    case SocketError(k) => s'.next >= s.next && s'.closes == Control.Settle(s.closes, k)
    case CloseTimer(c) =>
      s'.next >= s.next && c in s.closes && s'.closes == s.closes[c := s.closes[c].(settled := true)]
    case ResumeClose(c) => s'.next >= s.next && s'.closes == s.closes - {c}
    case Stop => ClosesAdded(s, s', Control.ForStop, now)
    case _ => ClosesIfFailed(s, s', failure, now)
  }

  lemma ClosesTurn(p: PeerState, ev: Event, now: nat, cfg: Config)
    requires CanHappen(p, ev, now)
    ensures ClosesChange(p.agent, TakeTurn(p, ev, now, cfg).peer.agent, ev, FailureOf(p, ev), now)
  {
    if ev.TokenFetch? || ev.SocketOpen? || ev.ResumeReceive? {
      AttemptCloses(p, ev, now, cfg);
    }
  }

  /** The one `receive()` call a turn may make takes the newest handle. */
  ghost predicate ReceiveAdded(s: Control.AgentState, s': Control.AgentState, due: nat) {
    && s'.next == s.next + 1
    && s.next in s'.receives
    && var r := s'.receives[s.next];
    && s'.receives == s.receives[s.next := r] && r.Awaiting? && r.due == due
  }

  lemma SocketOpenedReceives(p: PeerState, k: nat, now: nat, cfg: Config)
    requires k < |p.agent.sockets|
    ensures var s' := Peers.SocketOpened(p, k, now, cfg).peer.agent;
            s'.receives == p.agent.receives || ReceiveAdded(p.agent, s', now + Delay(cfg.timeout))
  {
  }

  lemma MessageArrivedReceives(p: PeerState, k: nat, msg: Option<Value>, now: nat)
    ensures var s' := MessageArrived(p, k, msg, now).peer.agent;
            s'.receives == p.agent.receives
            || (msg.Some? && s'.receives == Control.MessageReceived(p.agent, k, msg.value).receives)
  {
  }

  lemma TokenFetchedReceives(p: PeerState, f: nat, r: Auth.Response, now: nat, cfg: Config)
    requires f in p.auth.fetches
    ensures TokenFetched(p, f, r, now, cfg).peer.agent.receives == p.agent.receives
  {
  }

  lemma ReceiveResumedReceives(p: PeerState, r: nat, now: nat, cfg: Config)
    requires r in p.agent.receives && !p.agent.receives[r].Awaiting?
    ensures Peers.ReceiveResumed(p, r, now, cfg).peer.agent.receives == p.agent.receives - {r}
  {
  }

  /** A message settles the receives that wait on its socket; otherwise receives change one at a time. */
  lemma ReceivesTurn(p: PeerState, ev: Event, now: nat, cfg: Config)
    requires CanHappen(p, ev, now)
    ensures var s, s' := p.agent, TakeTurn(p, ev, now, cfg).peer.agent;
            match ev
            case SocketMessage(k, msg) =>
              s'.receives == s.receives
              || (msg.Some? && s'.receives == Control.MessageReceived(s, k, msg.value).receives)
            case ReceiveTimer(r) => s'.receives == s.receives[r := Control.Rejected(s.receives[r].caller)]
            case ResumeReceive(r) => s'.receives == s.receives - {r}
            case SocketOpen(_) => s'.receives == s.receives || ReceiveAdded(s, s', now + Delay(cfg.timeout))
            case _ => s'.receives == s.receives
  {
    match ev
    case TokenFetch(f, r) => TokenFetchedReceives(p, f, r, now, cfg);
    case SocketMessage(k, msg) => MessageArrivedReceives(p, k, msg, now);
    case SocketOpen(k) => SocketOpenedReceives(p, k, now, cfg);
    case ResumeReceive(r) => ReceiveResumedReceives(p, r, now, cfg);
    case _ =>
  }

  /** `stop` is the only reason but a failed attempt to close the agent; it closes it once. */
  ghost predicate PromisesInv(p: PeerState) {
    && (forall r :: r in p.agent.receives ==> r < p.agent.next)
    && (forall c :: c in p.agent.closes ==>
          c < p.agent.next && (p.agent.closes[c].purpose.ForStop? ==> p.own.phase.ClosingAgent?))
    && (forall c, d | c in p.agent.closes && d in p.agent.closes ::
          p.agent.closes[c].purpose.ForStop? && p.agent.closes[d].purpose.ForStop? ==> c == d)
  }

  lemma PromisesKept(p: PeerState, ev: Event, now: nat, cfg: Config)
    requires CanHappen(p, ev, now) && PromisesInv(p)
    ensures PromisesInv(TakeTurn(p, ev, now, cfg).peer)
  {
    ClosesTurn(p, ev, now, cfg);
    ReceivesTurn(p, ev, now, cfg);
    PhaseTurn(p, ev, now, cfg);
  }

  lemma HttpKept(p: PeerState, ev: Event, now: nat, cfg: Config)
    requires CanHappen(p, ev, now) && HttpInv(p, now) && PromisesInv(p)
    ensures HttpInv(TakeTurn(p, ev, now, cfg).peer, now)
  {
    HttpTurn(p, ev, now, cfg);
    PhaseTurn(p, ev, now, cfg);
    var turn := TakeTurn(p, ev, now, cfg);
    Http.DueAfterRotationKept(p.http, if turn.out.PingAuthDetails? then turn.out.details else StateEvent(None, None),
                              if ev.ShutdownTimer? then ev.agent else 0, now);
    if turn.out.PingAuthDetails? {
      Http.OnServerStateKeeps(p.http, turn.out.details, now);
    } else if ev.ShutdownTimer? {
      Http.ShutdownFiresKeeps(p.http, ev.agent, now);
    } else if ev.ServerStopped? {
      Http.StoppedKeeps(p.http);
    }
  }

  // ---- The watchdog -----------------------------------------------------------------------------------------------

  lemma TokenFetchedWatch(p: PeerState, f: nat, r: Auth.Response, now: nat, cfg: Config)
    requires f in p.auth.fetches && Control.WatchInv(p.agent.watch, cfg.timeout, now)
    ensures Control.WatchInv(TokenFetched(p, f, r, now, cfg).peer.agent.watch, cfg.timeout, now)
  {
    Control.OpenedKeeps(p.agent, Control.Starter, now, cfg.timeout);
  }

  lemma LoadCertsWatch(p: PeerState, k: nat, now: nat, cfg: Config)
    requires Control.WatchInv(p.agent.watch, cfg.timeout, now)
    ensures k < |p.agent.sockets| ==>
              Control.WatchInv(Peers.SocketOpened(p, k, now, cfg).peer.agent.watch, cfg.timeout, now)
    ensures k in p.agent.receives && !p.agent.receives[k].Awaiting? ==>
              Control.WatchInv(Peers.ReceiveResumed(p, k, now, cfg).peer.agent.watch, cfg.timeout, now)
  {
  }

  lemma WatchKept(p: PeerState, ev: Event, now: nat, cfg: Config)
    requires CanHappen(p, ev, now) && Control.WatchInv(p.agent.watch, cfg.timeout, now)
    ensures Control.WatchInv(TakeTurn(p, ev, now, cfg).peer.agent.watch, cfg.timeout, now)
  {
    match ev
    case TokenFetch(f, r) => TokenFetchedWatch(p, f, r, now, cfg);
    case SocketOpen(k) => LoadCertsWatch(p, k, now, cfg);
    case ResumeReceive(r) => LoadCertsWatch(p, r, now, cfg);
    case PingTimer(t) => Control.PingTimedOutKeeps(p.agent, t, now, cfg.timeout);
    case SocketPing(_) => Control.SchedulePingKeeps(p.agent.watch, now, cfg.timeout);
    case SocketClose(_) => Control.SchedulePingKeeps(p.agent.watch, now, cfg.timeout);
    case _ =>
  }
}
