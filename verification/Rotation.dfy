/** Rotations of HTTPS agents over whole runs: how many there are, and when `stop` can still reach every destruction. */
module Rotation {
  import opened Prelude
  import Codec
  import opened Messages
  import opened Ping
  import opened Peers
  import opened Adapter
  import opened Invariants
  import opened Runs
  import opened Traces
  import Http

  // ---- Spaced rotations -------------------------------------------------------------------------------------------

  ghost predicate AllSpaced(h: Http.HttpState, updates: seq<StateEvent>) {
    forall e | e in updates :: Http.SpacedAt(h, e)
  }

  /** At every rotation of the HTTP server of `x` in a run, no agent awaits its destruction. */
  ghost predicate RotationsSpaced(s: AdapterState, run: seq<Move>, cfg: AdapterConfig, env: Environment, x: Side)
    requires Legal(s, run, cfg, env)
    decreases run
  {
    run != [] ==>
      && AllSpaced(s.Peer(x).http, Updates(s, run[0], cfg, x))
      && RotationsSpaced(Step(s, run[0], cfg), run[1..], cfg, env, x)
  }

  /** In every state of the run `stop` could reach every pending destruction of peer `x`. */
  ghost predicate AlwaysStoppable(s: AdapterState, run: seq<Move>, cfg: AdapterConfig, env: Environment, x: Side)
    requires Legal(s, run, cfg, env)
    decreases run
  {
    && Http.AllStoppable(s.Peer(x).http)
    && (run != [] ==> AlwaysStoppable(Step(s, run[0], cfg), run[1..], cfg, env, x))
  }

  lemma UpdateStoppable(h: Http.HttpState, e: StateEvent, now: nat)
    requires Http.Inv(h) && Http.AllStoppable(h)
    ensures Http.AllStoppable(Http.OnServerState(h, e, now)) <==> Http.SpacedAt(h, e)
  {
    if Http.Rotates(h, e) {
      Http.RotationStaysStoppable(h, e, now);
    }
  }

  lemma TurnStoppable(p: PeerState, ev: Event, now: nat, cfg: Config)
    requires CanHappen(p, ev, now) && HttpInv(p, now) && Http.AllStoppable(p.http)
    ensures var turn := TakeTurn(p, ev, now, cfg);
            Http.AllStoppable(turn.peer.http) <==>
            (turn.out.PingAuthDetails? ==> Http.SpacedAt(p.http, turn.out.details))
  {
    HttpTurn(p, ev, now, cfg);
    var out := TakeTurn(p, ev, now, cfg).out;
    if out.PingAuthDetails? {
      UpdateStoppable(p.http, out.details, now);
    }
  }

  lemma CrashesSilently(p: PeerState, ev: Event, now: nat, cfg: Config)
    requires CanHappen(p, ev, now) && TakeTurn(p, ev, now, cfg).out.PingAuthDetails?
    ensures !TakeTurn(p, ev, now, cfg).crashed
  {
  }

  /** The emission of a turn as the updates of the move. */
  lemma UpdatesOfTurn(s: AdapterState, ev: Event, cfg: AdapterConfig, x: Side)
    requires CanMove(s, On(x, ev))
    ensures var turn := TakeTurn(s.Peer(x), ev, s.now, cfg.Of(x));
            Updates(s, On(x, ev), cfg, x) == if turn.out.PingAuthDetails? then [turn.out.details] else []
  {
    if TakeTurn(s.Peer(x), ev, s.now, cfg.Of(x)).out.PingAuthDetails? {
      CrashesSilently(s.Peer(x), ev, s.now, cfg.Of(x));
    }
  }

  lemma OnlySpaced(h: Http.HttpState, out: Out)
    ensures AllSpaced(h, if out.PingAuthDetails? then [out.details] else []) <==>
            (out.PingAuthDetails? ==> Http.SpacedAt(h, out.details))
  {
  }

  lemma StepStoppable(s: AdapterState, m: Move, cfg: AdapterConfig, x: Side)
    requires CanMove(s, m) && AdapterInv(s, cfg) && Http.AllStoppable(s.Peer(x).http)
    ensures Http.AllStoppable(Step(s, m, cfg).Peer(x).http) <==> AllSpaced(s.Peer(x).http, Updates(s, m, cfg, x))
  {
    StepLocal(s, m, cfg, x);
    if m.On? && m.side == x {
      var turn := TakeTurn(s.Peer(x), m.ev, s.now, cfg.Of(x));
      UpdatesOfTurn(s, m.ev, cfg, x);
      OnlySpaced(s.Peer(x).http, turn.out);
      TurnStoppable(s.Peer(x), m.ev, s.now, cfg.Of(x));
      assert Step(s, m, cfg).Peer(x).http == turn.peer.http;
    }
  }

  lemma {:induction false} RunStoppable(s: AdapterState, run: seq<Move>, cfg: AdapterConfig, env: Environment, x: Side)
    requires AdapterInv(s, cfg) && Legal(s, run, cfg, env) && Http.AllStoppable(s.Peer(x).http)
    ensures AlwaysStoppable(s, run, cfg, env, x) <==> RotationsSpaced(s, run, cfg, env, x)
    ensures AlwaysStoppable(s, run, cfg, env, x) ==> Http.AllStoppable(After(s, run, cfg, env).Peer(x).http)
    decreases run
  {
    if run != [] {
      StepStoppable(s, run[0], cfg, x);
      if Http.AllStoppable(Step(s, run[0], cfg).Peer(x).http) {
        StepKeepsInv(s, run[0], cfg);
        RunStoppable(Step(s, run[0], cfg), run[1..], cfg, env, x);
      }
    }
  }

  /**
   * `stop` can reach every pending destruction in all states of a run exactly when, at every rotation in it, no agent
   * awaits its destruction. (Rotations more than 5 s apart are such when no shutdown timer is overdue, see
   * `Http.SettledIsStoppable`; so is the first double delivery of certificates, see `SpacedRuns.ReadyRunIsSpaced`.)
   */
  lemma SpacedRunsStayStoppable(run: seq<Move>, cfg: AdapterConfig, env: Environment, x: Side)
    requires Legal(INITIAL_ADAPTER, run, cfg, env)
    ensures AlwaysStoppable(INITIAL_ADAPTER, run, cfg, env, x) <==> RotationsSpaced(INITIAL_ADAPTER, run, cfg, env, x)
    ensures RotationsSpaced(INITIAL_ADAPTER, run, cfg, env, x) ==>
              Http.Stopped(After(INITIAL_ADAPTER, run, cfg, env).Peer(x).http).timers == map[]
  {
    InitiallyInv(cfg);
    RunStoppable(INITIAL_ADAPTER, run, cfg, env, x);
    if RotationsSpaced(INITIAL_ADAPTER, run, cfg, env, x) {
      Http.StopLeavesNone(After(INITIAL_ADAPTER, run, cfg, env).Peer(x).http);
    }
  }

  // ---- How many agents --------------------------------------------------------------------------------------------

  /** How many of the updates bring certificates. */
  function CertUpdates(updates: seq<StateEvent>): nat
    decreases updates
  {
    if updates == [] then 0
    else
      var c := updates[0].certs;
      (if c.Some? && !IsFalsy(c.value) then 1 else 0) + CertUpdates(updates[1..])
  }

  lemma StepBuildsAgents(s: AdapterState, m: Move, cfg: AdapterConfig, x: Side)
    requires CanMove(s, m)
    ensures var h, h' := s.Peer(x).http, Step(s, m, cfg).Peer(x).http;
            && (h'.listening ==> h.listening)
            && (h'.listening ==> |h'.created| == |h.created| + CertUpdates(Updates(s, m, cfg, x)))
  {
    StepLocal(s, m, cfg, x);
    if m.On? && m.side == x {
      HttpTurn(s.Peer(x), m.ev, s.now, cfg.Of(x));
      var turn := TakeTurn(s.Peer(x), m.ev, s.now, cfg.Of(x));
      if turn.out.PingAuthDetails? {
        CrashesSilently(s.Peer(x), m.ev, s.now, cfg.Of(x));
      }
    }
  }

  /** Until its server is stopped, a peer has built one agent for each update with certificates that it emitted. */
  lemma {:induction false} AgentPerUpdate(
    s: AdapterState, run: seq<Move>, cfg: AdapterConfig, env: Environment, x: Side)
    requires Legal(s, run, cfg, env)
    ensures var h, h' := s.Peer(x).http, After(s, run, cfg, env).Peer(x).http;
            && (h'.listening ==> h.listening)
            && (h'.listening ==> |h'.created| == |h.created| + CertUpdates(UpdatesIn(s, run, cfg, env, x)))
    decreases run
  {
    if run != [] {
      StepBuildsAgents(s, run[0], cfg, x);
      AgentPerUpdate(Step(s, run[0], cfg), run[1..], cfg, env, x);
      AppendCounts(Updates(s, run[0], cfg, x), UpdatesIn(Step(s, run[0], cfg), run[1..], cfg, env, x));
    }
  }

  lemma {:induction false} AppendCounts(first: seq<StateEvent>, second: seq<StateEvent>)
    ensures CertUpdates(first + second) == CertUpdates(first) + CertUpdates(second)
  {
    if first == [] {
      assert first + second == second;
    } else {
      assert (first + second)[1..] == first[1..] + second;
      AppendCounts(first[1..], second);
    }
  }

  /** Without certificates among the updates the last certificates stay what they were. */
  lemma {:induction false} NoCertsNoChange(certs: Option<Codec.Value>, updates: seq<StateEvent>)
    requires CertUpdates(updates) == 0
    ensures LastCerts(certs, updates) == certs
    decreases updates
  {
    if updates != [] {
      NoCertsNoChange(certs, updates[1..]);
    }
  }
}
