/** What ends the process, exactly. */
module Crashes {
  import opened Prelude
  import opened Codec
  import opened Protocol
  import opened Peers
  import opened Adapter
  import Control

  // ---- The message listeners that `receive()` leaves behind -------------------------------------------------------

  /** A socket opens for a caller that goes on to `loadCerts`, and so to a `receive()` on the current socket `k`. */
  predicate ListensOn(p: PeerState, ev: Event, k: nat) {
    && ev.SocketOpen? && ev.socket < |p.agent.sockets| && p.agent.sockets[ev.socket].opener.Some?
    && Control.IsOpen(Control.SocketOpened(p.agent, ev.socket))
    && p.agent.ws == Some(k)
  }

  function ListenerAfter(p: PeerState, ev: Event, k: nat, listens: bool): bool {
    if ListensOn(p, ev, k) then true
    else if ev.SocketMessage? && ev.socket == k && ev.msg.Some? then false
    else listens
  }

  /** Whether `receive()` was called on socket `k` of peer `x` since the last message on it that could be parsed. */
  ghost function ListenerIn(
    s: AdapterState, run: seq<Move>, cfg: AdapterConfig, env: Environment, x: Side, k: nat, listens: bool): bool
    requires Legal(s, run, cfg, env)
    decreases run
  {
    if run == [] then listens
    else
      var listens' := if run[0].On? && run[0].side == x
                      then ListenerAfter(s.Peer(x), run[0].ev, k, listens) else listens;
      ListenerIn(Step(s, run[0], cfg), run[1..], cfg, env, x, k, listens')
  }

  lemma SocketOpenedListens(p: PeerState, i: nat, now: nat, cfg: Config, k: nat)
    requires i < |p.agent.sockets|
    ensures k in SocketOpened(p, i, now, cfg).peer.agent.listeners <==>
            ListensOn(p, SocketOpen(i), k) || k in p.agent.listeners
  {
  }

  lemma MessageArrivedListens(p: PeerState, i: nat, msg: Option<Value>, now: nat, k: nat)
    requires !MessageArrived(p, i, msg, now).crashed
    ensures k in MessageArrived(p, i, msg, now).peer.agent.listeners <==>
            k in p.agent.listeners && !(i == k && msg.Some?)
  {
  }

  lemma OtherTurnsListen(p: PeerState, ev: Event, now: nat, cfg: Config)
    requires CanHappen(p, ev, now) && !ev.SocketOpen? && !ev.SocketMessage?
    ensures TakeTurn(p, ev, now, cfg).peer.agent.listeners == p.agent.listeners
  {
  }

  lemma ListenersTurn(p: PeerState, ev: Event, now: nat, cfg: Config, k: nat)
    requires CanHappen(p, ev, now) && !TakeTurn(p, ev, now, cfg).crashed
    ensures k in TakeTurn(p, ev, now, cfg).peer.agent.listeners <==> ListenerAfter(p, ev, k, k in p.agent.listeners)
  {
    match ev
    case SocketOpen(i) => SocketOpenedListens(p, i, now, cfg, k);
    case SocketMessage(i, msg) => MessageArrivedListens(p, i, msg, now, k);
    case _ => OtherTurnsListen(p, ev, now, cfg);
  }

  lemma {:induction false} RunListens(
    s: AdapterState, run: seq<Move>, cfg: AdapterConfig, env: Environment, x: Side, k: nat)
    requires Legal(s, run, cfg, env)
    ensures var last := After(s, run, cfg, env);
            !last.crashed ==>
              (k in last.Peer(x).agent.listeners <==>
               ListenerIn(s, run, cfg, env, x, k, k in s.Peer(x).agent.listeners))
    decreases run
  {
    if run != [] && !Step(s, run[0], cfg).crashed {
      StepLocal(s, run[0], cfg, x);
      if run[0].On? && run[0].side == x {
        ListenersTurn(s.Peer(x), run[0].ev, s.now, cfg.Of(x), k);
      }
      RunListens(Step(s, run[0], cfg), run[1..], cfg, env, x, k);
    }
  }

  // ---- What ends the process --------------------------------------------------------------------------------------

  /** The events that end the process; `listens` tells whether a `once` listener waits on the socket of a message. */
  predicate Ends(p: PeerState, ev: Event, listens: bool) {
    match ev
    case PingTimer(_) => Control.IsOpen(p.agent)
    case SocketMessage(_, msg) => msg == Some(Null) || (msg.None? && listens)
    case SocketOpen(i) =>
      && i < |p.agent.sockets| && p.agent.sockets[i].opener == Some(Control.Watchdog)
      && !Control.IsOpen(Control.SocketOpened(p.agent, i))
    case ResumeReceive(r) =>
      && r in p.agent.receives && p.agent.receives[r].caller.Watchdog?
      && !(p.agent.receives[r].Received? && IsCertsPayload(p.agent.receives[r].msg))
    case _ => false
  }

  lemma TurnCrashes(p: PeerState, ev: Event, now: nat, cfg: Config)
    requires CanHappen(p, ev, now)
    ensures TakeTurn(p, ev, now, cfg).crashed <==>
            Ends(p, ev, ev.SocketMessage? && ev.socket in p.agent.listeners)
  {
    if ev.SocketMessage? {
      ThrowsExactlyOnNull(ev.msg);
    }
  }

  /**
   * After every run, the process ends on exactly these occasions: the watchdog fires while the socket is open; the hub
   * sends the text `null`, or a text that is not JSON on a socket on which `receive()` was called since the last parsed
   * message, even if that `receive()` timed out long ago; a socket reopened by the watchdog is no longer current; or
   * the `loadCerts` of the watchdog gets no certificates.
   */
  lemma CrashesExactly(run: seq<Move>, cfg: AdapterConfig, env: Environment, x: Side, ev: Event)
    requires Legal(INITIAL_ADAPTER, run, cfg, env)
    ensures var s := After(INITIAL_ADAPTER, run, cfg, env);
            CanMove(s, On(x, ev)) ==>
              var listens := ev.SocketMessage? && ListenerIn(INITIAL_ADAPTER, run, cfg, env, x, ev.socket, false);
              Step(s, On(x, ev), cfg).crashed <==> Ends(s.Peer(x), ev, listens)
  {
    var s := After(INITIAL_ADAPTER, run, cfg, env);
    if CanMove(s, On(x, ev)) {
      TurnCrashes(s.Peer(x), ev, s.now, cfg.Of(x));
      if ev.SocketMessage? {
        RunListens(INITIAL_ADAPTER, run, cfg, env, x, ev.socket);
      }
    }
  }
}
