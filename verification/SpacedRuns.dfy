/** The condition on rotations under which `stop` reaches every destruction is met by an ordinary start. */
module SpacedRuns {
  import opened Prelude
  import opened Codec
  import opened Protocol
  import opened Ping
  import opened Peers
  import opened Adapter
  import opened Scenarios
  import opened Beginnings
  import opened StopRuns
  import opened Rotation
  import opened Traces
  import Auth
  import Http
  import Control

  ghost predicate SpacedLeads(run: seq<Move>, p: PeerState) {
    Leads(INITIAL_ADAPTER, run, ALL, p, 0) && RotationsSpaced(INITIAL_ADAPTER, run, CFG, ALL, A)
  }

  ghost predicate SpacedReaches(p: PeerState) {
    exists run :: SpacedLeads(run, p)
  }

  lemma {:induction false} OneMoreSpaced(s: AdapterState, run: seq<Move>, m: Move)
    requires Legal(s, run, CFG, ALL) && Legal(s, run + [m], CFG, ALL) && RotationsSpaced(s, run, CFG, ALL, A)
    requires CanMove(After(s, run, CFG, ALL), m)
    requires forall e | e in Updates(After(s, run, CFG, ALL), m, CFG, A) ::
               Http.SpacedAt(After(s, run, CFG, ALL).Peer(A).http, e)
    ensures RotationsSpaced(s, run + [m], CFG, ALL, A)
    decreases run
  {
    if run == [] {
      assert run + [m] == [m];
      assert [m][1..] == [];
    } else {
      assert (run + [m])[1..] == run[1..] + [m];
      OneMoreSpaced(Step(s, run[0], CFG), run[1..], m);
    }
  }

  /** Peer A takes a turn that rotates only while no agent awaits its destruction. */
  lemma SpacedThen(run: seq<Move>, p: PeerState, ev: Event, turn: Turn)
    requires SpacedLeads(run, p) && CanHappen(p, ev, 0) && AllowsTurn(ALL.a, p, ev, 0)
    requires TakeTurn(p, ev, 0, DEFAULTS) == turn && !turn.crashed && !turn.out.PeerJws?
    requires turn.out.PingAuthDetails? ==> Http.SpacedAt(p.http, turn.out.details)
    ensures SpacedLeads(run + [On(A, ev)], turn.peer)
  {
    OneMoreMove(INITIAL_ADAPTER, run, On(A, ev), CFG, ALL);
    TurnOfA(After(INITIAL_ADAPTER, run, CFG, ALL), p, 0, ev, turn);
    OneMoreSpaced(INITIAL_ADAPTER, run, On(A, ev));
  }

  lemma SpacedBegun()
    ensures SpacedReaches(BEGUN)
  {
    assert SpacedLeads([], INITIAL_PEER);
    SpacedThen([], INITIAL_PEER, Start, Quiet(BEGUN));
  }

  lemma SpacedToken(p: PeerState, f: nat, expiresIn: nat)
    requires SpacedReaches(p) && f in p.auth.fetches && p.auth.fetches[f].awaited
    requires !Control.IsOpen(p.agent) && expiresIn >= 31
    ensures SpacedReaches(AfterToken(p, f, expiresIn, 0))
  {
    var run :| SpacedLeads(run, p);
    TokenTurn(p, f, expiresIn, 0);
    var turn := Turn(AfterToken(p, f, expiresIn, 0), PingAuthDetails(StateEvent(Some("t"), None)), false);
    SpacedThen(run, p, TokenFetch(f, Auth.Body("t", expiresIn, 0)), turn);
  }

  lemma SpacedFetched(due: nat, expiresIn: nat)
    requires Expiry(due, expiresIn) && expiresIn >= 31
    ensures SpacedReaches(Fetched(due, expiresIn, CONNECTING))
  {
    SpacedBegun();
    FirstAuthState(due, expiresIn);
    FirstSocket(BEGUN.agent);
    SpacedToken(BEGUN, 0, expiresIn);
    assert AfterToken(BEGUN, 0, expiresIn, 0) == Fetched(due, expiresIn, CONNECTING);
  }

  lemma SpacedLoading()
    ensures SpacedReaches(Fetched(30_000, 3600, LOADING))
  {
    SpacedFetched(30_000, 3600);
    var p := Fetched(30_000, 3600, CONNECTING);
    var run :| SpacedLeads(run, p);
    var turn := SocketOpened(p, 0, 0, DEFAULTS);
    assert turn.peer.agent == LOADING;
    SpacedThen(run, p, SocketOpen(0), turn);
    assert turn.peer == Fetched(30_000, 3600, LOADING);
    assert SpacedLeads(run + [On(A, SocketOpen(0))], Fetched(30_000, 3600, LOADING));
  }

  lemma SpacedArrived(msg: Value)
    requires IsCertsPayload(msg)
    ensures SpacedReaches(AfterCerts(Fetched(30_000, 3600, LOADING), 0, msg, 0))
  {
    SpacedLoading();
    var p := Fetched(30_000, 3600, LOADING);
    var run :| SpacedLeads(run, p);
    CertsExactly(Some(msg), ExtractCerts(msg));
    SpacedThen(run, p, SocketMessage(0, Some(msg)),
               Turn(AfterCerts(p, 0, msg, 0), PingAuthDetails(CertsEvent(msg)), false));
  }

  /**
   * A legal run in which the certificates are delivered twice, as always, leads to a ready peer and rotates only while
   * no agent awaits its destruction.
   */
  lemma ReadyRunIsSpaced(msg: Value)
    requires IsCertsPayload(msg)
    ensures exists run ::
              && Legal(INITIAL_ADAPTER, run, CFG, ALL) && RotationsSpaced(INITIAL_ADAPTER, run, CFG, ALL, A)
              && After(INITIAL_ADAPTER, run, CFG, ALL).a.own.isReady
              && After(INITIAL_ADAPTER, run, CFG, ALL).a.http.created == [ExtractCerts(msg), ExtractCerts(msg)]
  {
    SpacedArrived(msg);
    var p := Fetched(30_000, 3600, LOADING);
    var arrived := AfterCerts(p, 0, msg, 0);
    var run :| SpacedLeads(run, arrived);
    LoadingReceives(p.agent, msg);
    LoadsHttp(p.http, msg, 0);
    SpacedThen(run, arrived, ResumeReceive(0),
               Turn(AfterLoading(arrived, 0, msg, 0), PingAuthDetails(CertsEvent(msg)), false));
    assert SpacedLeads(run + [On(A, ResumeReceive(0))], AfterLoading(arrived, 0, msg, 0));
  }
}
