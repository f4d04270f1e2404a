/** A certificate message that answers `loadCerts` is delivered twice: by `_handle`, and when `loadCerts` resumes. */
module DoubleDelivery {
  import opened Prelude
  import opened Codec
  import opened Messages
  import opened Protocol
  import opened Ping
  import opened Peers
  import opened Adapter
  import opened Invariants
  import opened Runs
  import opened Credentials
  import opened Traces
  import opened Rotation
  import Http

  /** Receive `r` of peer `p` has got message `msg` and `loadCerts` has not resumed yet. */
  ghost predicate Holds(p: PeerState, r: nat, msg: Value) {
    r in p.agent.receives && p.agent.receives[r].Received? && p.agent.receives[r].msg == msg
  }

  lemma TurnKeepsHeld(p: PeerState, ev: Event, now: nat, cfg: Config, r: nat, msg: Value)
    requires CanHappen(p, ev, now) && PromisesInv(p) && Holds(p, r, msg) && ev != ResumeReceive(r)
    ensures Holds(TakeTurn(p, ev, now, cfg).peer, r, msg)
  {
    ReceivesTurn(p, ev, now, cfg);
  }

  predicate NeverResumes(run: seq<Move>, x: Side, r: nat) {
    forall i | 0 <= i < |run| :: run[i] != On(x, ResumeReceive(r))
  }

  lemma {:induction false} RunKeepsHeld(
    s: AdapterState, run: seq<Move>, cfg: AdapterConfig, env: Environment, x: Side, r: nat, msg: Value)
    requires AdapterInv(s, cfg) && Legal(s, run, cfg, env) && Holds(s.Peer(x), r, msg) && NeverResumes(run, x, r)
    ensures Holds(After(s, run, cfg, env).Peer(x), r, msg)
    decreases run
  {
    if run != [] {
      StepLocal(s, run[0], cfg, x);
      if run[0].On? && run[0].side == x {
        TurnKeepsHeld(s.Peer(x), run[0].ev, s.now, cfg.Of(x), r, msg);
      }
      StepKeepsInv(s, run[0], cfg);
      RunKeepsHeld(Step(s, run[0], cfg), run[1..], cfg, env, x, r, msg);
    }
  }

  /** Peer `x` and the other peer's ping service both use `certs`. */
  ghost predicate InUse(s: AdapterState, x: Side, certs: Value) {
    Http.CurrentCerts(s.Peer(x).http) == Some(certs) && s.Peer(x.Other()).ping.certs == Some(certs)
  }

  /** One rotation: a new agent is built, the previous one, if any, is retired. */
  ghost predicate RotatedOnce(h: Http.HttpState, h': Http.HttpState, now: nat) {
    && |h'.created| == |h.created| + 1
    && h'.timers == if h.agent.Some? then h.timers[h.agent.value := now + 5000] else h.timers
  }

  lemma CertsInstalled(s: AdapterState, x: Side, turn: Turn, certs: Value)
    requires s.Peer(x).http.listening && Truthy(certs) && !turn.crashed
    requires turn.out == PingAuthDetails(StateEvent(None, Some(certs)))
    requires turn.peer.http == Http.OnServerState(s.Peer(x).http, turn.out.details, s.now)
    ensures InUse(Applied(s, x, turn), x, certs)
    ensures RotatedOnce(s.Peer(x).http, Applied(s, x, turn).Peer(x).http, s.now)
  {
  }

  /** First delivery: `_handle` installs the certificates, and a waiting `loadCerts` keeps the same message. */
  lemma MessageDelivers(s: AdapterState, cfg: AdapterConfig, x: Side, k: nat, msg: Value, r: nat)
    requires CanMove(s, On(x, SocketMessage(k, Some(msg)))) && s.Peer(x).http.listening && IsCertsPayload(msg)
    requires r in s.Peer(x).agent.receives && s.Peer(x).agent.receives[r].Awaiting?
             && s.Peer(x).agent.receives[r].socket == k
    ensures var s' := Step(s, On(x, SocketMessage(k, Some(msg))), cfg);
            && Handle(Some(msg)) == OnCert(ExtractCerts(msg))
            && InUse(s', x, ExtractCerts(msg))
            && RotatedOnce(s.Peer(x).http, s'.Peer(x).http, s.now)
            && Holds(s'.Peer(x), r, msg)
  {
    var ev := SocketMessage(k, Some(msg));
    CertsExactly(Some(msg), ExtractCerts(msg));
    HttpTurn(s.Peer(x), ev, s.now, cfg.Of(x));
    CertsInstalled(s, x, TakeTurn(s.Peer(x), ev, s.now, cfg.Of(x)), ExtractCerts(msg));
  }

  /** The certificates of the current agent of peer `x`, and those with which the other peer answers pings. */
  function Certs(s: AdapterState, x: Side): (Option<Value>, Option<Value>) {
    (Http.CurrentCerts(s.Peer(x).http), s.Peer(x.Other()).ping.certs)
  }

  /** The resuming `loadCerts` installs the certificates of its message in both peers, and retires one more agent. */
  ghost predicate DeliversAgain(s: AdapterState, cfg: AdapterConfig, x: Side, r: nat, msg: Value)
    requires IsCertsPayload(msg)
  {
    && CanMove(s, On(x, ResumeReceive(r)))
    && var s' := Step(s, On(x, ResumeReceive(r)), cfg);
    && InUse(s', x, ExtractCerts(msg))
    && RotatedOnce(s.Peer(x).http, s'.Peer(x).http, s.now)
  }

  lemma ResumeDelivers(s: AdapterState, cfg: AdapterConfig, x: Side, r: nat, msg: Value)
    requires !s.crashed && s.Peer(x).http.listening
    requires Holds(s.Peer(x), r, msg) && IsCertsPayload(msg)
    ensures DeliversAgain(s, cfg, x, r, msg)
  {
    var ev := ResumeReceive(r);
    HttpTurn(s.Peer(x), ev, s.now, cfg.Of(x));
    CertsInstalled(s, x, TakeTurn(s.Peer(x), ev, s.now, cfg.Of(x)), ExtractCerts(msg));
  }

  // ---- Over whole runs --------------------------------------------------------------------------------------------

  /**
   * The run begins with a certificate message that answers the `receive()` `r` of a `loadCerts`, which it does not
   * resume.
   */
  ghost predicate Answers(s: AdapterState, run: seq<Move>, x: Side, r: nat, msg: Value) {
    && run != [] && IsCertsPayload(msg)
    && r in s.Peer(x).agent.receives && s.Peer(x).agent.receives[r].Awaiting?
    && run[0] == On(x, SocketMessage(s.Peer(x).agent.receives[r].socket, Some(msg)))
    && NeverResumes(run, x, r)
  }

  lemma MessageUpdates(s: AdapterState, cfg: AdapterConfig, x: Side, k: nat, msg: Value)
    requires CanMove(s, On(x, SocketMessage(k, Some(msg)))) && IsCertsPayload(msg)
    ensures Updates(s, On(x, SocketMessage(k, Some(msg))), cfg, x) == [StateEvent(None, Some(ExtractCerts(msg)))]
  {
    CertsExactly(Some(msg), ExtractCerts(msg));
  }

  lemma AnswerIsHeld(
    s: AdapterState, run: seq<Move>, cfg: AdapterConfig, env: Environment, x: Side, r: nat, msg: Value)
    requires AdapterInv(s, cfg) && Legal(s, run, cfg, env) && Answers(s, run, x, r, msg)
    requires s.Peer(x).http.listening
    ensures Holds(After(s, run, cfg, env).Peer(x), r, msg)
    ensures Updates(s, run[0], cfg, x) == [StateEvent(None, Some(ExtractCerts(msg)))]
  {
    var k := s.Peer(x).agent.receives[r].socket;
    MessageDelivers(s, cfg, x, k, msg, r);
    MessageUpdates(s, cfg, x, k, msg);
    StepKeepsInv(s, run[0], cfg);
    assert NeverResumes(run[1..], x, r);
    RunKeepsHeld(Step(s, run[0], cfg), run[1..], cfg, env, x, r, msg);
  }

  /** What the run installed last is in use in both peers. */
  lemma LastUpdateInUse(
    s: AdapterState, run: seq<Move>, cfg: AdapterConfig, env: Environment, x: Side)
    requires Legal(s, run, cfg, env) && !s.crashed && Mirrors(s.Peer(x.Other()).ping, s.Peer(x).http)
    ensures var last := After(s, run, cfg, env);
            !last.crashed && last.Peer(x).http.listening ==>
              var certs := LastCerts(s.Peer(x.Other()).ping.certs, UpdatesIn(s, run, cfg, env, x));
              Certs(last, x) == (certs, certs)
  {
    PingHoldsLast(s, run, cfg, env, x);
    RunKeepsMirror(s, run, cfg, env, x);
  }

  /** After the arrival of the message its own certificates are what later updates replace. */
  lemma StartsWithAnswer(certs: Option<Value>, own: Value, rest: seq<StateEvent>)
    requires !IsFalsy(own)
    ensures LastCerts(certs, [StateEvent(None, Some(own))] + rest) == LastCerts(Some(own), rest)
    ensures CertUpdates([StateEvent(None, Some(own))] + rest) == 1 + CertUpdates(rest)
  {
    var updates := [StateEvent(None, Some(own))] + rest;
    assert updates[1..] == rest;
  }

  /** The updates that peer `x` emits in the run after its first move. */
  ghost function UpdatesSince(
    s: AdapterState, run: seq<Move>, cfg: AdapterConfig, env: Environment, x: Side): seq<StateEvent>
    requires Legal(s, run, cfg, env) && run != []
  {
    UpdatesIn(Step(s, run[0], cfg), run[1..], cfg, env, x)
  }

  lemma AnswerThenRun(
    s: AdapterState, run: seq<Move>, cfg: AdapterConfig, env: Environment, x: Side, r: nat, msg: Value)
    requires AdapterInv(s, cfg) && Legal(s, run, cfg, env) && Answers(s, run, x, r, msg)
    requires !s.crashed && Mirrors(s.Peer(x.Other()).ping, s.Peer(x).http) && s.Peer(x).http.listening
    ensures var last := After(s, run, cfg, env);
            var since := UpdatesSince(s, run, cfg, env, x);
            !last.crashed && last.Peer(x).http.listening ==>
              var certs := LastCerts(Some(ExtractCerts(msg)), since);
              && Holds(last.Peer(x), r, msg)
              && Certs(last, x) == (certs, certs)
              && |last.Peer(x).http.created| == |s.Peer(x).http.created| + 1 + CertUpdates(since)
  {
    AnswerIsHeld(s, run, cfg, env, x, r, msg);
    CertsPayloadExactly(msg);
    LastUpdateInUse(s, run, cfg, env, x);
    AgentPerUpdate(s, run, cfg, env, x);
    StartsWithAnswer(s.Peer(x.Other()).ping.certs, ExtractCerts(msg), UpdatesSince(s, run, cfg, env, x));
  }

  /** `loadCerts` resumes in state `last`, `since` having been emitted since its message arrived. */
  ghost predicate SecondDeliveryIs(
    first: AdapterState, last: AdapterState, cfg: AdapterConfig, x: Side, r: nat, msg: Value, since: seq<StateEvent>)
    requires IsCertsPayload(msg)
  {
    && CanMove(last, On(x, ResumeReceive(r)))
    && var resumed := Step(last, On(x, ResumeReceive(r)), cfg);
    && Certs(resumed, x) == (Some(ExtractCerts(msg)), Some(ExtractCerts(msg)))
    && RotatedOnce(last.Peer(x).http, resumed.Peer(x).http, last.now)
    && (Certs(resumed, x) == Certs(last, x) <==>
          LastCerts(Some(ExtractCerts(msg)), since) == Some(ExtractCerts(msg)))
    && |resumed.Peer(x).http.created| == |first.Peer(x).http.created| + 2 + CertUpdates(since)
  }

  /**
   * From the state before a certificate message that answers `loadCerts`, over any moves up to the resumption of
   * `loadCerts`: the resumption installs the message's certificates in both peers. It changes nothing there exactly
   * when the last certificates that the peer emitted since are still the message's own. The message costs two agents
   * instead of one.
   */
  lemma SecondDelivery(
    before: seq<Move>, after: seq<Move>, cfg: AdapterConfig, history: Environment, env: Environment,
    x: Side, r: nat, msg: Value)
    requires Legal(INITIAL_ADAPTER, before, cfg, history)
    requires Legal(After(INITIAL_ADAPTER, before, cfg, history), after, cfg, env)
    ensures var s := After(INITIAL_ADAPTER, before, cfg, history);
            var last := After(s, after, cfg, env);
            Answers(s, after, x, r, msg) && !last.crashed && last.Peer(x).http.listening ==>
              SecondDeliveryIs(s, last, cfg, x, r, msg, UpdatesSince(s, after, cfg, env, x))
  {
    InitiallyInv(cfg);
    RunKeepsInv(INITIAL_ADAPTER, before, cfg, history);
    RunKeepsMirror(INITIAL_ADAPTER, before, cfg, history, x);
    var s := After(INITIAL_ADAPTER, before, cfg, history);
    var last := After(s, after, cfg, env);
    if Answers(s, after, x, r, msg) && !last.crashed && last.Peer(x).http.listening {
      AgentPerUpdate(s, after, cfg, env, x);
      AnswerThenRun(s, after, cfg, env, x, r, msg);
      ResumeDelivers(last, cfg, x, r, msg);
    }
  }

  /**
   * In particular a message delivered twice is harmless when the peer emits no other certificates in between: both
   * peers end with what the first delivery gave them, and exactly one extra agent is retired.
   */
  lemma HarmlessIfAlone(
    before: seq<Move>, after: seq<Move>, cfg: AdapterConfig, history: Environment, env: Environment,
    x: Side, r: nat, msg: Value)
    requires Legal(INITIAL_ADAPTER, before, cfg, history)
    requires Legal(After(INITIAL_ADAPTER, before, cfg, history), after, cfg, env)
    ensures var s := After(INITIAL_ADAPTER, before, cfg, history);
            var last := After(s, after, cfg, env);
            Answers(s, after, x, r, msg) && !last.crashed && last.Peer(x).http.listening
            && CertUpdates(UpdatesSince(s, after, cfg, env, x)) == 0 ==>
              && CanMove(last, On(x, ResumeReceive(r)))
              && var resumed := Step(last, On(x, ResumeReceive(r)), cfg);
              && Certs(resumed, x) == Certs(last, x) == Certs(Step(s, after[0], cfg), x)
              && |resumed.Peer(x).http.created| == |Step(s, after[0], cfg).Peer(x).http.created| + 1
  {
    SecondDelivery(before, after, cfg, history, env, x, r, msg);
    var s := After(INITIAL_ADAPTER, before, cfg, history);
    var last := After(s, after, cfg, env);
    if Answers(s, after, x, r, msg) && !last.crashed && last.Peer(x).http.listening {
      AgentPerUpdate(s, after, cfg, env, x);
      MessageDelivers(s, cfg, x, s.Peer(x).agent.receives[r].socket, msg, r);
      if CertUpdates(UpdatesSince(s, after, cfg, env, x)) == 0 {
        NoCertsNoChange(Some(ExtractCerts(msg)), UpdatesSince(s, after, cfg, env, x));
      }
    }
  }
}
