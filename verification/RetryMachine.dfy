/**
 * The start, fail, clean up, retry life of a peer. The control of `startPm4mlPart` is spread over promises and timers
 * of three components; this module proves that it is always in exactly one place.
 */
module RetryMachine {
  import opened Prelude
  import opened Codec
  import opened Protocol
  import opened Peers
  import opened Invariants
  import Auth
  import Control

  /** Where the control of the start procedure is. */
  datatype Stage =
    | Idle
    | Fetching(fetch: nat)
    | Opening(socket: nat)
    | Loading(receive: nat)
    | Cleaning(close: nat)
    | Waiting(timer: nat)
    | Ready

  // ---- The stage is the only place that holds control -------------------------------------------------------------

  ghost predicate FetchesAt(s: Auth.AuthState, st: Stage) {
    && (forall f :: f in s.fetches ==> (s.fetches[f].awaited <==> st == Fetching(f)))
    && (st.Fetching? ==> st.fetch in s.fetches)
  }

  ghost predicate SocketsAt(s: Control.AgentState, st: Stage) {
    && (forall k :: 0 <= k < |s.sockets| ==> (s.sockets[k].opener == Some(Control.Starter) <==> st == Opening(k)))
    && (st.Opening? ==> st.socket < |s.sockets|)
  }

  ghost predicate ReceivesAt(s: Control.AgentState, st: Stage) {
    && (forall r :: r in s.receives ==> r < s.next && (s.receives[r].caller.Starter? <==> st == Loading(r)))
    && (st.Loading? ==> st.receive in s.receives)
  }

  ghost predicate ClosesAt(s: Control.AgentState, st: Stage) {
    && (forall c :: c in s.closes ==> c < s.next && (s.closes[c].purpose.ForRetry? <==> st == Cleaning(c)))
    && (st.Cleaning? ==> st.close in s.closes)
  }

  ghost predicate OwnAt(s: OwnState, st: Stage) {
    && (forall t :: t in s.retries ==> t < s.next && st == Waiting(t))
    && (st.Waiting? ==> st.timer in s.retries && s.retryStartTimer == Some(st.timer))
    && (forall t :: t in s.jwsLoops ==> st.Ready? && s.peerJwsRefreshLoopTimer == Some(t))
    && (s.isReady <==> st.Ready?)
    && (s.started <==> !st.Idle?)
  }

  ghost predicate InStage(p: PeerState, st: Stage) {
    && FetchesAt(p.auth, st)
    && SocketsAt(p.agent, st)
    && ReceivesAt(p.agent, st)
    && ClosesAt(p.agent, st)
    && OwnAt(p.own, st)
  }

  /** A peer is in one stage only. */
  lemma OneStage(p: PeerState, st: Stage, su: Stage)
    requires InStage(p, st) && InStage(p, su)
    ensures st == su
  {
  }

  // ---- The simple machine that the peer refines -------------------------------------------------------------------

  function NextStage(p: PeerState, st: Stage, ev: Event): Stage
    requires ev.SocketOpen? ==> ev.socket < |p.agent.sockets|
  {
    match ev
    case Start => Fetching(p.auth.next)
    case RetryTimer(_) => Fetching(p.auth.next)
    case TokenFetch(f, r) =>
      if st != Fetching(f) then st
      else if !Auth.BringsToken(r) || Control.IsOpen(p.agent) then Cleaning(p.agent.next)
      else Opening(|p.agent.sockets|)
    case SocketOpen(k) =>
      if st != Opening(k) then st
      else if Control.IsOpen(Control.SocketOpened(p.agent, k)) then Loading(p.agent.next)
      else Cleaning(p.agent.next)
    case ResumeReceive(r) =>
      if st != Loading(r) then st
      else if r in p.agent.receives && p.agent.receives[r].Received? && IsCertsPayload(p.agent.receives[r].msg)
      then Ready
      else Cleaning(p.agent.next)
    case ResumeClose(c) => if st == Cleaning(c) then Waiting(p.own.next) else st
    case _ => st
  }

  /** The stages that can follow one another before `stop`. */
  predicate MayFollow(st: Stage, su: Stage) {
    || st == su
    || (su.Fetching? && (st.Idle? || st.Waiting?))
    || (su.Opening? && st.Fetching?)
    || (su.Loading? && st.Opening?)
    || (su.Ready? && st.Loading?)
    || (su.Cleaning? && (st.Fetching? || st.Opening? || st.Loading?))
    || (su.Waiting? && st.Cleaning?)
  }

  /** Before `stop` every turn counts; in a hung attempt even those after it do. */
  predicate Counts(p: PeerState, st: Stage, ev: Event) {
    (p.own.phase.Running? && !ev.Stop?) || (st.Opening? && ev != SocketOpen(st.socket))
  }

  lemma FetchStageBeforeHalt(p: PeerState, st: Stage, ev: Event, now: nat, cfg: Config)
    requires CanHappen(p, ev, now) && AuthInv(p.auth) && InStage(p, st)
    ensures FetchesAt(AuthBeforeHalt(p, ev, now, cfg), NextStage(p, st, ev))
  {
  }

  lemma HaltAt(s: Auth.AuthState, st: Stage)
    requires FetchesAt(s, st)
    ensures FetchesAt(Auth.Halt(s), st)
  {
  }

  lemma FetchStage(p: PeerState, st: Stage, ev: Event, now: nat, cfg: Config)
    requires CanHappen(p, ev, now) && AuthInv(p.auth) && InStage(p, st)
    ensures FetchesAt(TakeTurn(p, ev, now, cfg).peer.auth, NextStage(p, st, ev))
  {
    FetchStageBeforeHalt(p, st, ev, now, cfg);
    HaltAt(AuthBeforeHalt(p, ev, now, cfg), NextStage(p, st, ev));
    AuthTurn(p, ev, now, cfg);
  }

  ghost predicate AgentAt(s: Control.AgentState, st: Stage) {
    SocketsAt(s, st) && ReceivesAt(s, st) && ClosesAt(s, st)
  }

  /** With no promise left to await, a failing attempt holds control in its `close()` alone. */
  lemma FailAt(s: Control.AgentState, dns: bool, now: nat)
    requires AgentAt(s, Idle)
    ensures AgentAt(Control.ClosingFor(s, Control.ForRetry(dns, now), now), Cleaning(s.next))
  {
  }

  lemma OpenAt(s: Control.AgentState, now: nat, timeout: int)
    requires AgentAt(s, Idle)
    ensures AgentAt(Control.Opened(s, Control.Starter, now, timeout),
                    if Control.IsOpen(s) then Idle else Opening(|s.sockets|))
  {
  }

  lemma LoadAt(s: Control.AgentState, now: nat, timeout: int)
    requires AgentAt(s, Idle) && Control.IsOpen(s)
    ensures AgentAt(Control.LoadingCerts(s, Control.Starter, now, timeout), Loading(s.next))
  {
  }

  lemma WatchdogLoadAt(s: Control.AgentState, st: Stage, k: nat, now: nat, timeout: int)
    requires AgentAt(s, st) && k < |s.sockets| && st != Opening(k)
    ensures AgentAt(Control.SocketOpened(s, k), st)
    ensures AgentAt(Control.LoadingCerts(Control.SocketOpened(s, k), Control.Watchdog, now, timeout), st)
  {
  }

  lemma AwaitedFetchStage(p: PeerState, f: nat, r: Auth.Response, now: nat, cfg: Config)
    requires f in p.auth.fetches && p.auth.fetches[f].awaited && AgentAt(p.agent, Idle)
    ensures AgentAt(TokenFetched(p, f, r, now, cfg).peer.agent, NextStage(p, Fetching(f), TokenFetch(f, r)))
  {
    Auth.ResponseExactly(r, cfg.auth, 0, now);
    if !Auth.BringsToken(r) {
      FailAt(p.agent, Auth.IsDnsFailure(r), now);
    } else {
      var s := Control.Opened(p.agent, Control.Starter, now, cfg.timeout);
      OpenAt(p.agent, now, cfg.timeout);
      if Control.IsOpen(p.agent) {
        FailAt(s, false, now);
      }
    }
  }

  lemma TokenFetchedStage(p: PeerState, st: Stage, f: nat, r: Auth.Response, now: nat, cfg: Config)
    requires f in p.auth.fetches && InStage(p, st)
    ensures AgentAt(TokenFetched(p, f, r, now, cfg).peer.agent, NextStage(p, st, TokenFetch(f, r)))
  {
    if st == Fetching(f) {
      AwaitedFetchStage(p, f, r, now, cfg);
    }
  }

  lemma OwnSocketOpenedStage(p: PeerState, k: nat, now: nat, cfg: Config)
    requires k < |p.agent.sockets| && AgentAt(p.agent, Opening(k))
    ensures AgentAt(SocketOpened(p, k, now, cfg).peer.agent, NextStage(p, Opening(k), SocketOpen(k)))
  {
    var s := Control.SocketOpened(p.agent, k);
    assert AgentAt(s, Idle);
    if Control.IsOpen(s) {
      LoadAt(s, now, cfg.timeout);
    } else {
      FailAt(s, false, now);
    }
  }

  lemma SocketOpenedStage(p: PeerState, st: Stage, k: nat, now: nat, cfg: Config)
    requires k < |p.agent.sockets| && InStage(p, st)
    ensures AgentAt(SocketOpened(p, k, now, cfg).peer.agent, NextStage(p, st, SocketOpen(k)))
  {
    if st == Opening(k) {
      OwnSocketOpenedStage(p, k, now, cfg);
    } else {
      WatchdogLoadAt(p.agent, st, k, now, cfg.timeout);
    }
  }

  lemma ReceiveResumedAt(s: Control.AgentState, st: Stage, r: nat)
    requires AgentAt(s, st)
    ensures AgentAt(Control.ReceiveResumed(s, r), if st == Loading(r) then Idle else st)
  {
  }

  lemma ReceiveResumedStage(p: PeerState, st: Stage, r: nat, now: nat, cfg: Config)
    requires r in p.agent.receives && !p.agent.receives[r].Awaiting? && InStage(p, st)
    ensures AgentAt(ReceiveResumed(p, r, now, cfg).peer.agent, NextStage(p, st, ResumeReceive(r)))
  {
    var resumed := Control.ReceiveResumed(p.agent, r);
    ReceiveResumedAt(p.agent, st, r);
    if st == Loading(r) {
      FailAt(resumed, false, now);
    }
  }

  lemma MessageAt(s: Control.AgentState, st: Stage, k: nat, msg: Value)
    requires AgentAt(s, st)
    ensures AgentAt(Control.MessageReceived(s, k, msg), st)
  {
  }

  lemma MessageArrivedStage(p: PeerState, st: Stage, k: nat, msg: Option<Value>, now: nat)
    requires AgentAt(p.agent, st)
    ensures AgentAt(MessageArrived(p, k, msg, now).peer.agent, st)
  {
    if msg.Some? {
      MessageAt(p.agent, st, k, msg.value);
      match Handle(msg)
      case Reply(kind, id) => MessageAt(Control.Sent(p.agent, NotifyError(kind, id)), st, k, msg.value);
      case _ =>
    }
  }

  lemma SocketClosedAt(s: Control.AgentState, st: Stage, k: nat, now: nat, timeout: int)
    requires AgentAt(s, st) && k < |s.sockets|
    ensures AgentAt(Control.SocketClosed(s, k, now, timeout), st)
  {
  }

  lemma SocketFailedAt(s: Control.AgentState, st: Stage, k: nat)
    requires AgentAt(s, st) && k < |s.sockets|
    ensures AgentAt(Control.SocketFailed(s, k), st)
  {
  }

  lemma TimerAt(s: Control.AgentState, st: Stage, t: nat, now: nat, timeout: int)
    requires AgentAt(s, st)
    ensures AgentAt(Control.PingTimedOut(s, t, now, timeout), st)
    ensures t in s.receives ==> AgentAt(Control.ReceiveTimedOut(s, t), st)
    ensures t in s.closes ==> AgentAt(Control.CloseTimedOut(s, t), st)
  {
  }

  lemma StopAt(s: Control.AgentState, st: Stage, now: nat)
    requires AgentAt(s, st)
    ensures AgentAt(Control.ClosingFor(s, Control.ForStop, now), st)
  {
  }

  lemma CloseResumedAt(s: Control.AgentState, st: Stage, c: nat, timer: nat)
    requires AgentAt(s, st)
    ensures AgentAt(Control.CloseResumed(s, c), if st == Cleaning(c) then Waiting(timer) else st)
  {
  }

  lemma AgentStage(p: PeerState, st: Stage, ev: Event, now: nat, cfg: Config)
    requires CanHappen(p, ev, now) && InStage(p, st)
    ensures AgentAt(TakeTurn(p, ev, now, cfg).peer.agent, NextStage(p, st, ev))
  {
    match ev
    case TokenFetch(f, r) => TokenFetchedStage(p, st, f, r, now, cfg);
    case SocketOpen(k) => SocketOpenedStage(p, st, k, now, cfg);
    case ResumeReceive(r) => ReceiveResumedStage(p, st, r, now, cfg);
    case SocketMessage(k, msg) => MessageArrivedStage(p, st, k, msg, now);
    case SocketClose(k) => SocketClosedAt(p.agent, st, k, now, cfg.timeout);
    case SocketError(k) => SocketFailedAt(p.agent, st, k);
    case PingTimer(t) => TimerAt(p.agent, st, t, now, cfg.timeout);
    case ReceiveTimer(t) => TimerAt(p.agent, st, t, now, cfg.timeout);
    case CloseTimer(t) => TimerAt(p.agent, st, t, now, cfg.timeout);
    case Stop => StopAt(p.agent, st, now);
    case ResumeClose(c) => CloseResumedAt(p.agent, st, c, p.own.next);
    case _ =>
  }

  /** `stop` is the only other reason to close the control agent, and nothing resumes it before `stop` began. */
  ghost predicate OnlyRetriesClose(p: PeerState) {
    p.own.phase.Running? ==> forall c :: c in p.agent.closes ==> p.agent.closes[c].purpose.ForRetry?
  }

  lemma TokenFetchedOwn(p: PeerState, st: Stage, f: nat, r: Auth.Response, now: nat, cfg: Config)
    requires f in p.auth.fetches && InStage(p, st)
    ensures OwnAt(TokenFetched(p, f, r, now, cfg).peer.own, NextStage(p, st, TokenFetch(f, r)))
  {
  }

  lemma SocketOpenedOwn(p: PeerState, st: Stage, k: nat, now: nat, cfg: Config)
    requires k < |p.agent.sockets| && InStage(p, st)
    ensures OwnAt(SocketOpened(p, k, now, cfg).peer.own, NextStage(p, st, SocketOpen(k)))
  {
  }

  lemma ReceiveResumedOwn(p: PeerState, st: Stage, r: nat, now: nat, cfg: Config)
    requires r in p.agent.receives && !p.agent.receives[r].Awaiting? && InStage(p, st)
    ensures OwnAt(ReceiveResumed(p, r, now, cfg).peer.own, NextStage(p, st, ResumeReceive(r)))
  {
  }

  lemma AttemptOwn(p: PeerState, st: Stage, ev: Event, now: nat, cfg: Config)
    requires CanHappen(p, ev, now) && InStage(p, st) && (ev.TokenFetch? || ev.SocketOpen? || ev.ResumeReceive?)
    ensures OwnAt(TakeTurn(p, ev, now, cfg).peer.own, NextStage(p, st, ev))
  {
    match ev
    case TokenFetch(f, r) => TokenFetchedOwn(p, st, f, r, now, cfg);
    case SocketOpen(k) => SocketOpenedOwn(p, st, k, now, cfg);
    case ResumeReceive(r) => ReceiveResumedOwn(p, st, r, now, cfg);
  }

  lemma OwnStage(p: PeerState, st: Stage, ev: Event, now: nat, cfg: Config)
    requires CanHappen(p, ev, now) && InStage(p, st) && Counts(p, st, ev) && OnlyRetriesClose(p)
    ensures OwnAt(TakeTurn(p, ev, now, cfg).peer.own, NextStage(p, st, ev))
  {
    if ev.TokenFetch? || ev.SocketOpen? || ev.ResumeReceive? {
      AttemptOwn(p, st, ev, now, cfg);
    }
  }
}
