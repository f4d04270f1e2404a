/** Tokens, certificates and HTTPS agents over whole runs of the adapter. */
module Credentials {
  import opened Prelude
  import opened Messages
  import opened Ping
  import opened Peers
  import opened Adapter
  import opened Invariants
  import opened Runs
  import Auth
  import Http

  // ---- No agent dies in use ---------------------------------------------------------------------------------------

  lemma TurnKeepsAgentSafe(p: PeerState, ev: Event, now: nat, cfg: Config, a: nat, t: nat)
    requires CanHappen(p, ev, now) && HttpInv(p, now) && Http.SafeFrom(p.http, a, t, now)
    ensures Http.SafeFrom(TakeTurn(p, ev, now, cfg).peer.http, a, t, now)
  {
    HttpTurn(p, ev, now, cfg);
    var turn := TakeTurn(p, ev, now, cfg);
    if turn.out.PingAuthDetails? {
      Http.OnServerStateSafe(p.http, turn.out.details, a, t, now);
    } else if ev.ShutdownTimer? {
      Http.ShutdownFiresSafe(p.http, ev.agent, a, t, now);
    }
  }

  lemma StepKeepsAgentSafe(s: AdapterState, m: Move, cfg: AdapterConfig, x: Side, a: nat, t: nat)
    requires CanMove(s, m) && AdapterInv(s, cfg) && Http.SafeFrom(s.Peer(x).http, a, t, s.now)
    ensures Http.SafeFrom(Step(s, m, cfg).Peer(x).http, a, t, Step(s, m, cfg).now)
  {
    StepLocal(s, m, cfg, x);
    if m.On? && m.side == x {
      TurnKeepsAgentSafe(s.Peer(x), m.ev, s.now, cfg.Of(x), a, t);
    }
  }

  lemma {:induction false} RunKeepsAgentSafe(
    s: AdapterState, run: seq<Move>, cfg: AdapterConfig, env: Environment, x: Side, a: nat, t: nat)
    requires AdapterInv(s, cfg) && Legal(s, run, cfg, env) && Http.SafeFrom(s.Peer(x).http, a, t, s.now)
    ensures Http.SafeFrom(After(s, run, cfg, env).Peer(x).http, a, t, After(s, run, cfg, env).now)
    decreases run
  {
    if run != [] {
      StepKeepsInv(s, run[0], cfg);
      StepKeepsAgentSafe(s, run[0], cfg, x, a, t);
      RunKeepsAgentSafe(Step(s, run[0], cfg), run[1..], cfg, env, x, a, t);
    }
  }

  /**
   * A proxied request is forwarded exactly when there is a token and certificates have arrived. It then carries the
   * current token and the newest agent, which is alive and is not destroyed within the next 5 s, however certificates
   * rotate and whether or not the peer is stopped meanwhile.
   */
  lemma NoAgentDiesInUse(before: seq<Move>, after: seq<Move>, cfg: AdapterConfig, env: Environment, x: Side)
    requires Legal(INITIAL_ADAPTER, before, cfg, env)
    requires Legal(After(INITIAL_ADAPTER, before, cfg, env), after, cfg, env)
    ensures var s := After(INITIAL_ADAPTER, before, cfg, env);
            var later := After(s, after, cfg, env);
            var request := Http.SendProxyRequest(s.Peer(x).http, cfg.Of(x).peerEndpoint);
            && (request.Forward? <==> s.Peer(x).http.accessToken != "" && s.Peer(x).http.created != [])
            && (request.Forward? ==>
              && request.endpoint == cfg.Of(x).peerEndpoint
              && request.bearer == s.Peer(x).http.accessToken != ""
              && request.agent == |s.Peer(x).http.created| - 1
              && request.agent !in s.Peer(x).http.destroyed
              && (request.agent in later.Peer(x).http.destroyed ==>
                    s.now + 5000 <= later.now))
  {
    InitiallyInv(cfg);
    RunKeepsInv(INITIAL_ADAPTER, before, cfg, env);
    var s := After(INITIAL_ADAPTER, before, cfg, env);
    var request := Http.SendProxyRequest(s.Peer(x).http, cfg.Of(x).peerEndpoint);
    Http.ForwardsExactly(s.Peer(x).http, cfg.Of(x).peerEndpoint);
    if request.Forward? {
      Http.CurrentIsSafe(s.Peer(x).http, cfg.Of(x).peerEndpoint, s.now);
      RunKeepsAgentSafe(s, after, cfg, env, x, request.agent, s.now);
    }
  }

  // ---- A stopped server keeps what it has -------------------------------------------------------------------------

  lemma StoppedTurn(p: PeerState, ev: Event, now: nat, cfg: Config)
    requires CanHappen(p, ev, now) && !p.http.listening
    ensures var h := TakeTurn(p, ev, now, cfg).peer.http;
            && !h.listening && h.accessToken == p.http.accessToken
            && h.agent == p.http.agent && h.created == p.http.created
  {
    HttpTurn(p, ev, now, cfg);
  }

  /** Once the HTTP server is stopped its token and its agent never change, whatever still arrives. */
  lemma {:induction false} StoppedStays(
    s: AdapterState, run: seq<Move>, cfg: AdapterConfig, env: Environment, x: Side)
    requires Legal(s, run, cfg, env) && !s.Peer(x).http.listening
    ensures var h, later := s.Peer(x).http, After(s, run, cfg, env).Peer(x).http;
            && !later.listening && later.accessToken == h.accessToken
            && later.agent == h.agent && later.created == h.created
    decreases run
  {
    if run != [] {
      StepLocal(s, run[0], cfg, x);
      if run[0].On? && run[0].side == x {
        StoppedTurn(s.Peer(x), run[0].ev, s.now, cfg.Of(x));
      }
      StoppedStays(Step(s, run[0], cfg), run[1..], cfg, env, x);
    }
  }

  // ---- The server's token is fresh --------------------------------------------------------------------------------

  /** Until the HTTP server is stopped it holds the last token that was emitted. */
  ghost predicate HoldsLastToken(p: PeerState) {
    p.http.listening ==> p.http.accessToken == if p.auth.last.Some? then p.auth.last.value.token else ""
  }

  /** The last emitted token changes only when a token request ends, and is then the one of the response, or "". */
  lemma LastTokenTurn(p: PeerState, ev: Event, now: nat, cfg: Config)
    requires CanHappen(p, ev, now)
    ensures var turn := TakeTurn(p, ev, now, cfg);
            if ev.TokenFetch? then
              var e := Auth.EmissionFor(ev.response, p.auth.fetches[ev.fetch].loop, now);
              turn.peer.auth.last == Some(e) && turn.out == PingAuthDetails(StateEvent(Some(e.token), None))
            else
              && turn.peer.auth.last == p.auth.last
              && (turn.out.PingAuthDetails? ==> turn.out.details.accessToken.None?)
  {
    AuthTurn(p, ev, now, cfg);
    if ev.TokenFetch? {
      Auth.ResponseExactly(ev.response, cfg.auth, p.auth.fetches[ev.fetch].loop, now);
    }
  }

  /** The timers of the loop after response `r`: one more, due when the response calls for. */
  ghost predicate Schedules(
    s: Auth.AuthState, s': Auth.AuthState, loop: nat, r: Auth.Response, now: nat, cfg: Auth.Config)
  {
    && s.next in s'.timers && s'.timers == s.timers[s.next := s'.timers[s.next]]
    && s'.timers[s.next].loop == loop
    && exists sec | Auth.RefreshesAfter(r, cfg, sec) :: s'.timers[s.next].due == now + Delay(1000 * sec)
  }

  lemma FetchSchedules(s: Auth.AuthState, f: nat, r: Auth.Response, now: nat, cfg: Auth.Config)
    requires f in s.fetches && AuthInv(s)
    ensures Schedules(s, Auth.FetchDone(s, f, r, now, cfg), s.fetches[f].loop, r, now, cfg)
    ensures Auth.Halt(Auth.FetchDone(s, f, r, now, cfg)).timers == s.timers
  {
    Auth.ResponseExactly(r, cfg, s.fetches[f].loop, now);
    var a := Auth.FetchDone(s, f, r, now, cfg);
    assert s.next !in s.timers;
    assert a.timers - {s.next} == s.timers;
    assert Auth.RefreshesAfter(r, cfg, Auth.UpdateTimeoutSec(Auth.GetOidcToken(r), cfg));
  }

  /** The refresh state of a turn in which a token request ends: halted when a start attempt fails in it. */
  lemma FetchTurn(p: PeerState, f: nat, r: Auth.Response, now: nat, cfg: Config)
    requires CanHappen(p, TokenFetch(f, r), now)
    ensures var done := Auth.FetchDone(p.auth, f, r, now, cfg.auth);
            TakeTurn(p, TokenFetch(f, r), now, cfg).peer.auth ==
            if FailureOf(p, TokenFetch(f, r)).Some? then Auth.Halt(done) else done
  {
    Auth.ResponseExactly(r, cfg.auth, p.auth.fetches[f].loop, now);
  }

  /**
   * A token request that ends schedules the next refresh of its loop, at the time the response calls for, unless it
   * makes a start attempt fail, which ends the loop.
   */
  lemma RefreshScheduled(p: PeerState, f: nat, r: Auth.Response, now: nat, cfg: Config)
    requires CanHappen(p, TokenFetch(f, r), now) && AuthInv(p.auth)
    ensures var auth := TakeTurn(p, TokenFetch(f, r), now, cfg).peer.auth;
            if FailureOf(p, TokenFetch(f, r)).Some? then auth.timers == p.auth.timers
            else Schedules(p.auth, auth, p.auth.fetches[f].loop, r, now, cfg.auth)
  {
    FetchTurn(p, f, r, now, cfg);
    FetchSchedules(p.auth, f, r, now, cfg.auth);
  }

  lemma TurnKeepsLastToken(p: PeerState, ev: Event, now: nat, cfg: Config)
    requires CanHappen(p, ev, now) && HoldsLastToken(p)
    ensures HoldsLastToken(TakeTurn(p, ev, now, cfg).peer)
  {
    HttpTurn(p, ev, now, cfg);
    LastTokenTurn(p, ev, now, cfg);
  }

  ghost predicate TokenInv(p: PeerState, habits: Habits) {
    HoldsLastToken(p) && (habits.longTokens ==> Auth.RefreshAhead(p.auth))
  }

  lemma StepKeepsToken(s: AdapterState, m: Move, cfg: AdapterConfig, env: Environment, x: Side)
    requires CanMove(s, m) && Allows(env, s, m) && AdapterInv(s, cfg) && TokenInv(s.Peer(x), env.Of(x))
    ensures TokenInv(Step(s, m, cfg).Peer(x), env.Of(x))
  {
    StepLocal(s, m, cfg, x);
    if m.On? && m.side == x {
      TurnKeepsLastToken(s.Peer(x), m.ev, s.now, cfg.Of(x));
      AuthKept(s.Peer(x), m.ev, s.now, cfg.Of(x));
    }
  }

  lemma {:induction false} RunKeepsToken(s: AdapterState, run: seq<Move>, cfg: AdapterConfig, env: Environment, x: Side)
    requires AdapterInv(s, cfg) && Legal(s, run, cfg, env) && TokenInv(s.Peer(x), env.Of(x))
    ensures TokenInv(After(s, run, cfg, env).Peer(x), env.Of(x))
    decreases run
  {
    if run != [] {
      StepKeepsInv(s, run[0], cfg);
      StepKeepsToken(s, run[0], cfg, env, x);
      RunKeepsToken(Step(s, run[0], cfg), run[1..], cfg, env, x);
    }
  }

  /**
   * After every run whose tokens live at least 31 s: as long as the last token's transit time and the lag of the
   * refresh that follows it add up to at most 30 s, the HTTP server's token is empty or has not expired, unless
   * `stopUpdates` ended the loop that fetched it. Retries, failures, overlapping loops and clamped delays are all
   * covered.
   */
  lemma ServerTokenIsFresh(run: seq<Move>, cfg: AdapterConfig, env: Environment, x: Side)
    requires env.Of(x).longTokens && Legal(INITIAL_ADAPTER, run, cfg, env)
    ensures var s := After(INITIAL_ADAPTER, run, cfg, env);
            var p := s.Peer(x);
            p.http.listening && p.http.accessToken != "" && Auth.LagBounded(p.auth, s.now) ==>
              && p.auth.last.Some? && p.http.accessToken == p.auth.last.value.token
              && (s.now <= p.auth.last.value.expiresAt || Auth.Stopped(p.auth, p.auth.last.value.loop))
  {
    InitiallyInv(cfg);
    RunKeepsInv(INITIAL_ADAPTER, run, cfg, env);
    RunKeepsToken(INITIAL_ADAPTER, run, cfg, env, x);
    var s := After(INITIAL_ADAPTER, run, cfg, env);
    if Auth.LagBounded(s.Peer(x).auth, s.now) {
      Auth.FreshWhileLagBounded(s.Peer(x).auth, s.now);
    }
  }

  // ---- Each ping service mirrors the other peer -------------------------------------------------------------------

  /**
   * The ping service `g` of one peer holds the certificates of the other peer's current agent, and its token if it has
   * one.
   */
  ghost predicate Mirrors(g: PingState, h: Http.HttpState) {
    h.listening ==>
      && g.certs == Http.CurrentCerts(h)
      && (h.accessToken != "" ==> g.accessToken == h.accessToken)
  }

  lemma MirrorsAfterEvent(g: PingState, h: Http.HttpState, e: StateEvent, now: nat)
    requires Mirrors(g, h)
    ensures Mirrors(Merge(g, e), Http.OnServerState(h, e, now))
  {
  }

  lemma AppliedKeepsMirror(s: AdapterState, side: Side, turn: Turn, ev: Event, x: Side)
    requires Mirrors(s.Peer(x.Other()).ping, s.Peer(x).http)
    requires turn.peer.ping == s.Peer(side).ping && !turn.crashed
    requires turn.peer.http ==
             if turn.out.PingAuthDetails? then Http.OnServerState(s.Peer(side).http, turn.out.details, s.now)
             else if ev.ShutdownTimer? then Http.ShutdownFires(s.Peer(side).http, ev.agent)
             else if ev.ServerStopped? then Http.Stopped(s.Peer(side).http)
             else s.Peer(side).http
    ensures Mirrors(Applied(s, side, turn).Peer(x.Other()).ping, Applied(s, side, turn).Peer(x).http)
  {
    if side == x && turn.out.PingAuthDetails? {
      MirrorsAfterEvent(s.Peer(x.Other()).ping, s.Peer(x).http, turn.out.details, s.now);
    }
  }

  lemma StepKeepsMirror(s: AdapterState, m: Move, cfg: AdapterConfig, x: Side)
    requires CanMove(s, m) && Mirrors(s.Peer(x.Other()).ping, s.Peer(x).http)
    ensures Step(s, m, cfg).crashed || Mirrors(Step(s, m, cfg).Peer(x.Other()).ping, Step(s, m, cfg).Peer(x).http)
  {
    if m.On? {
      var p := s.Peer(m.side);
      PingTurn(p, m.ev, s.now, cfg.Of(m.side));
      HttpTurn(p, m.ev, s.now, cfg.Of(m.side));
      var turn := TakeTurn(p, m.ev, s.now, cfg.Of(m.side));
      if !turn.crashed {
        AppliedKeepsMirror(s, m.side, turn, m.ev, x);
      }
    }
  }

  lemma {:induction false} RunKeepsMirror(
    s: AdapterState, run: seq<Move>, cfg: AdapterConfig, env: Environment, x: Side)
    requires Legal(s, run, cfg, env) && (s.crashed || Mirrors(s.Peer(x.Other()).ping, s.Peer(x).http))
    ensures var s' := After(s, run, cfg, env);
            s'.crashed || Mirrors(s'.Peer(x.Other()).ping, s'.Peer(x).http)
    decreases run
  {
    if run != [] {
      StepKeepsMirror(s, run[0], cfg, x);
      RunKeepsMirror(Step(s, run[0], cfg), run[1..], cfg, env, x);
    }
  }

  /**
   * config.ts: the hub endpoints come from two environment variables; each peer answers pings at the other peer's hub.
   */
  predicate FromEnvironment(cfg: AdapterConfig) {
    cfg.a.pingCallbackEndpoint == cfg.b.peerEndpoint && cfg.b.pingCallbackEndpoint == cfg.a.peerEndpoint
  }

  /**
   * What a ping is answered with: a callback to the hub of `x`, back to the source, with the newest certificates of
   * `x`.
   */
  ghost predicate AnswersFor(callback: Callback, h: Http.HttpState, token: string, endpoint: string, source: string) {
    && (callback.Put? <==> source != "" && h.created != [] && WithCert(h.created[|h.created| - 1]))
    && (callback.Put? ==> callback == Put(endpoint, h.created[|h.created| - 1], token, source))
  }

  /**
   * After every run, until the HTTP server of `x` is stopped: the other peer answers a ping exactly when it has a
   * source and `x` an agent whose certificates have a `cert`, at the hub of `x`, with the certificates of the newest
   * agent. Whenever `x` would forward a proxied request as well, both carry the same token.
   */
  lemma PingAnswersAsProxy(run: seq<Move>, cfg: AdapterConfig, env: Environment, x: Side, source: string)
    requires FromEnvironment(cfg) && Legal(INITIAL_ADAPTER, run, cfg, env)
    ensures var s := After(INITIAL_ADAPTER, run, cfg, env);
            var h, g := s.Peer(x).http, s.Peer(x.Other()).ping;
            !s.crashed && h.listening ==>
              AnswersAsProxy(h, g, cfg.Of(x).peerEndpoint, cfg.Of(x.Other()).pingCallbackEndpoint, source)
  {
    InitiallyInv(cfg);
    RunKeepsInv(INITIAL_ADAPTER, run, cfg, env);
    RunKeepsMirror(INITIAL_ADAPTER, run, cfg, env, x);
    var s := After(INITIAL_ADAPTER, run, cfg, env);
    if !s.crashed && s.Peer(x).http.listening {
      MirrorAnswers(s.Peer(x).http, s.Peer(x.Other()).ping, cfg.Of(x).peerEndpoint, source);
    }
  }

  /** The answer to a ping from `source`, and its likeness to a proxied request. */
  ghost predicate AnswersAsProxy(
    h: Http.HttpState, g: PingState, peerEndpoint: string, pingCallbackEndpoint: string, source: string)
  {
    var request := Http.SendProxyRequest(h, peerEndpoint);
    var callback := PutPing(g, pingCallbackEndpoint, source);
    && AnswersFor(callback, h, g.accessToken, peerEndpoint, source)
    && (request.Forward? && callback.Put? ==>
          callback.endpoint == request.endpoint && callback.bearer == request.bearer)
  }

  lemma MirrorAnswers(h: Http.HttpState, g: PingState, endpoint: string, source: string)
    requires Mirrors(g, h) && h.listening && Http.AgentsConserved(h)
    ensures AnswersAsProxy(h, g, endpoint, endpoint, source)
  {
  }

  // ---- Nothing is lost --------------------------------------------------------------------------------------------

  /**
   * After every run, for each peer: every refresh loop ever started is ended, or has exactly one pending timer or one
   * request in flight; and every HTTPS agent ever built is the current one, awaits its destruction, was destroyed in
   * its turn, or was left alive by `stop`, which happens to one agent at most.
   */
  lemma NothingIsLost(run: seq<Move>, cfg: AdapterConfig, env: Environment, x: Side)
    requires Legal(INITIAL_ADAPTER, run, cfg, env)
    ensures var p := After(INITIAL_ADAPTER, run, cfg, env).Peer(x);
            && Auth.LoopsConserved(p.auth)
            && |p.auth.timers| + |p.auth.fetches| == p.auth.loops - p.auth.ended
            && Http.AgentsConserved(p.http) && Http.DestroyedInOrder(p.http) && Http.HandleIsNewest(p.http)
  {
    InitiallyInv(cfg);
    RunKeepsInv(INITIAL_ADAPTER, run, cfg, env);
  }
}
