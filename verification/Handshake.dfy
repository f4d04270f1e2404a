/** What a hub has to do for a start attempt to succeed: answer the request it gets. */
module Handshake {
  import opened Prelude
  import opened Codec
  import opened Messages
  import opened Protocol
  import opened Peers
  import opened Adapter
  import opened Runs
  import opened Recovery
  import opened Traces
  import opened DoubleDelivery
  import Control

  /** An attempt awaits its socket, which is the current one and still connects. */
  predicate Connects(p: PeerState, k: nat) {
    AwaitsOpen(p, k) && p.agent.sockets[k].ready.Connecting? && p.agent.ws == Some(k)
  }

  lemma OpeningLoads(p: PeerState, k: nat, now: nat, cfg: Config)
    requires Connects(p, k)
    ensures var p' := SocketOpened(p, k, now, cfg).peer;
            && p.agent.next in p'.agent.receives
            && p'.agent.receives[p.agent.next] == Control.Awaiting(k, now + Delay(cfg.timeout), Control.Starter)
            && Talking(p'.agent, k) && p'.http == p.http
    ensures !SocketOpened(p, k, now, cfg).crashed
    ensures Control.IsOpen(Control.SocketOpened(p.agent, k))
  {
  }

  lemma AnswerArrives(p: PeerState, k: nat, r: nat, answer: Value, certs: Value, now: nat, cfg: Config)
    requires CanHappen(p, SocketMessage(k, Some(answer)), now) && BringsCerts(answer, certs)
    requires r in p.agent.receives && p.agent.receives[r].Awaiting? && p.agent.receives[r].socket == k
    ensures var turn := TakeTurn(p, SocketMessage(k, Some(answer)), now, cfg);
            && !turn.crashed && r in turn.peer.agent.receives
            && turn.peer.agent.receives[r] == Control.Received(answer, p.agent.receives[r].caller)
            && turn.peer.http.listening == p.http.listening
  {
    CertsPayloadExactly(answer);
    CertsExactly(Some(answer), certs);
  }

  lemma LoadingEnds(s: AdapterState, cfg: AdapterConfig, x: Side, r: nat, answer: Value, certs: Value)
    requires !s.crashed && s.Peer(x).http.listening && BringsCerts(answer, certs)
    requires r in s.Peer(x).agent.receives && s.Peer(x).agent.receives[r] == Control.Received(answer, Control.Starter)
    ensures CanMove(s, On(x, ResumeReceive(r)))
    ensures var s' := Step(s, On(x, ResumeReceive(r)), cfg);
            !s'.crashed && s'.Peer(x).own.isReady && InUse(s', x, certs)
  {
    CertsPayloadExactly(answer);
    ResumeDelivers(s, cfg, x, r, answer);
  }

  /** The last frame that peer `x` wrote, as its hub decodes it, asks for the configuration. */
  ghost predicate JustAsked(s: AdapterState, x: Side, slug: string, coerce: Coercion) {
    var sent := s.Peer(x).agent.sent;
    sent != [] && Says(Decoded(sent[|sent| - 1], slug, coerce), "READ", "CONFIGURATION")
  }

  /** From state `s`: the socket opens, the peer asks, the hub answers with `certs`, and the peer is ready with them. */
  ghost predicate AnswerMakesReady(
    s: AdapterState, cfg: AdapterConfig, x: Side, k: nat, answer: Value, certs: Value, slug: string, coerce: Coercion)
  {
    && CanMove(s, On(x, SocketOpen(k)))
    && var asked := Step(s, On(x, SocketOpen(k)), cfg);
    && JustAsked(asked, x, slug, coerce)
    && CanMove(asked, On(x, SocketMessage(k, Some(answer))))
    && var answered := Step(asked, On(x, SocketMessage(k, Some(answer))), cfg);
    && CanMove(answered, On(x, ResumeReceive(s.Peer(x).agent.next)))
    && var ready := Step(answered, On(x, ResumeReceive(s.Peer(x).agent.next)), cfg);
    && !ready.crashed && ready.Peer(x).own.isReady && InUse(ready, x, certs)
  }

  /** After the socket opened: the peer awaits message `r` on socket `k`. */
  ghost predicate Waits(s: AdapterState, x: Side, k: nat, r: nat) {
    var p := s.Peer(x);
    && !s.crashed && p.http.listening && Talking(p.agent, k)
    && r in p.agent.receives && p.agent.receives[r].Awaiting?
    && p.agent.receives[r].socket == k && p.agent.receives[r].caller.Starter?
  }

  lemma SocketOpens(s: AdapterState, cfg: AdapterConfig, x: Side, k: nat, slug: string, coerce: Coercion)
    requires !s.crashed && s.Peer(x).http.listening && Connects(s.Peer(x), k)
    ensures CanMove(s, On(x, SocketOpen(k)))
    ensures Waits(Step(s, On(x, SocketOpen(k)), cfg), x, k, s.Peer(x).agent.next)
    ensures JustAsked(Step(s, On(x, SocketOpen(k)), cfg), x, slug, coerce)
  {
    var p := s.Peer(x);
    OpeningLoads(p, k, s.now, cfg.Of(x));
    AsksForCertificates(p, k, s.now, cfg.Of(x), slug, coerce);
    StepPeer(s, On(x, SocketOpen(k)), cfg, x);
    assert Step(s, On(x, SocketOpen(k)), cfg).Peer(x) == SocketOpened(p, k, s.now, cfg.Of(x)).peer;
  }

  lemma AnswerLoads(s: AdapterState, cfg: AdapterConfig, x: Side, k: nat, r: nat, answer: Value, certs: Value)
    requires Waits(s, x, k, r) && BringsCerts(answer, certs)
    ensures CanMove(s, On(x, SocketMessage(k, Some(answer))))
    ensures var s' := Step(s, On(x, SocketMessage(k, Some(answer))), cfg);
            && !s'.crashed && s'.Peer(x).http.listening
            && r in s'.Peer(x).agent.receives
            && s'.Peer(x).agent.receives[r] == Control.Received(answer, Control.Starter)
  {
    AnswerArrives(s.Peer(x), k, r, answer, certs, s.now, cfg.Of(x));
    StepPeer(s, On(x, SocketMessage(k, Some(answer))), cfg, x);
  }

  lemma HubAnswers(
    s: AdapterState, cfg: AdapterConfig, x: Side, k: nat, answer: Value, certs: Value, slug: string, coerce: Coercion)
    requires !s.crashed && s.Peer(x).http.listening && Connects(s.Peer(x), k) && BringsCerts(answer, certs)
    ensures AnswerMakesReady(s, cfg, x, k, answer, certs, slug, coerce)
  {
    var r := s.Peer(x).agent.next;
    SocketOpens(s, cfg, x, k, slug, coerce);
    var asked := Step(s, On(x, SocketOpen(k)), cfg);
    AnswerLoads(asked, cfg, x, k, r, answer, certs);
    LoadingEnds(Step(asked, On(x, SocketMessage(k, Some(answer))), cfg), cfg, x, r, answer, certs);
  }

  /** An attempt of the running peer `x` connects. */
  predicate AttemptConnects(s: AdapterState, x: Side, k: nat) {
    !s.crashed && s.Peer(x).own.phase.Running? && Connects(s.Peer(x), k)
  }

  lemma RunningListens(p: PeerState, now: nat, cfg: Config)
    requires PeerInv(p, now, cfg) && p.own.phase.Running?
    ensures p.http.listening
  {
  }

  lemma AttemptAnswered(
    s: AdapterState, cfg: AdapterConfig, x: Side, k: nat, answer: Value, certs: Value, slug: string, coerce: Coercion)
    requires AdapterInv(s, cfg) && AttemptConnects(s, x, k) && BringsCerts(answer, certs)
    ensures AnswerMakesReady(s, cfg, x, k, answer, certs, slug, coerce)
  {
    RunningListens(s.Peer(x), s.now, cfg.Of(x));
    HubAnswers(s, cfg, x, k, answer, certs, slug, coerce);
  }

  /**
   * After every run: an attempt whose socket connects succeeds if its hub, once the socket opens, answers the request
   * it gets, which asks for the configuration, with any announcement that brings credentials. The peer is then ready
   * and both peers use exactly these credentials.
   */
  lemma AnsweringHubMakesReady(
    run: seq<Move>, cfg: AdapterConfig, env: Environment, x: Side, k: nat, answer: Value, certs: Value, slug: string,
    coerce: Coercion)
    requires Legal(INITIAL_ADAPTER, run, cfg, env)
    ensures var s := After(INITIAL_ADAPTER, run, cfg, env);
            AttemptConnects(s, x, k) && BringsCerts(answer, certs) ==>
              AnswerMakesReady(s, cfg, x, k, answer, certs, slug, coerce)
  {
    InitiallyInv(cfg);
    RunKeepsInv(INITIAL_ADAPTER, run, cfg, env);
    var s := After(INITIAL_ADAPTER, run, cfg, env);
    if AttemptConnects(s, x, k) && BringsCerts(answer, certs) {
      AttemptAnswered(s, cfg, x, k, answer, certs, slug, coerce);
    }
  }
}
