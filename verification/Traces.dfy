/** What crosses from one peer to the other, over whole runs: JWS announcements and ping credentials. */
module Traces {
  import opened Prelude
  import opened Codec
  import opened Messages
  import opened Protocol
  import opened Ping
  import opened Peers
  import opened Adapter
  import Auth
  import Control
  import Invariants

  // ---- JWS announcements ------------------------------------------------------------------------------------------

  predicate IsJwsNotify(f: Frame) {
    f.verb.NOTIFY? && f.msg.PEER_JWS?
  }

  /** The payloads of the PEER_JWS NOTIFY messages among the written ones, in order. */
  function JwsWritten(sent: seq<Frame>): seq<Option<Value>> {
    if sent == [] then []
    else
      var init := JwsWritten(sent[..|sent| - 1]);
      var last := sent[|sent| - 1];
      if IsJwsNotify(last) then init + [last.data] else init
  }

  lemma JwsWrittenAfter(sent: seq<Frame>, f: Frame)
    ensures JwsWritten(sent + [f]) == JwsWritten(sent) + if IsJwsNotify(f) then [f.data] else []
  {
    assert (sent + [f])[..|sent|] == sent;
  }

  /**
   * What a move makes peer `x` pass on: the data of a JWS announcement it just received, if the other peer is ready and
   * its socket open.
   */
  function PassedOn(s: AdapterState, m: Move, x: Side): seq<Option<Value>> {
    var other := s.Peer(x.Other());
    if m.On? && m.side == x && m.ev.SocketMessage? && m.ev.msg.Some? && Says(m.ev.msg.value, "NOTIFY", "PEER_JWS")
       && s.Peer(x).own.jwsListeners && other.own.isReady && Control.IsOpen(other.agent)
    then [Field(m.ev.msg.value, "data")] else []
  }

  ghost function PassedOnIn(
    s: AdapterState, run: seq<Move>, cfg: AdapterConfig, env: Environment, x: Side): seq<Option<Value>>
    requires Legal(s, run, cfg, env)
    decreases run
  {
    if run == [] then [] else PassedOn(s, run[0], x) + PassedOnIn(Step(s, run[0], cfg), run[1..], cfg, env, x)
  }

  /** All that a peer's own turn writes to its hub. */
  function OwnFrames(p: PeerState, ev: Event): seq<Frame>
    requires ev.SocketOpen? ==> ev.socket < |p.agent.sockets|
  {
    match ev
    case SocketOpen(k) =>
      if p.agent.sockets[k].opener.Some? && Control.IsOpen(Control.SocketOpened(p.agent, k))
      then [ReadConfiguration()] else []
    case SocketMessage(k, msg) =>
      var action := Handle(msg);
      if action.Reply? && Control.IsOpen(p.agent) && !(msg.None? && k in p.agent.listeners)
      then [NotifyError(action.kind, action.id)] else []
    case JwsTimer(_) => if Control.IsOpen(p.agent) then [ReadPeerJws()] else []
    case _ => []
  }

  lemma AttemptTurnsWriteNothing(p: PeerState, i: nat, r: Auth.Response, now: nat, cfg: Config)
    ensures i in p.auth.fetches ==> TokenFetched(p, i, r, now, cfg).peer.agent.sent == p.agent.sent
    ensures i in p.agent.receives && !p.agent.receives[i].Awaiting? ==>
              ReceiveResumed(p, i, now, cfg).peer.agent.sent == p.agent.sent
  {
  }

  lemma SocketOpenedWrites(p: PeerState, k: nat, now: nat, cfg: Config)
    requires k < |p.agent.sockets|
    ensures SocketOpened(p, k, now, cfg).peer.agent.sent == p.agent.sent + OwnFrames(p, SocketOpen(k))
  {
  }

  lemma MessageArrivedWrites(p: PeerState, k: nat, msg: Option<Value>, now: nat)
    ensures MessageArrived(p, k, msg, now).peer.agent.sent == p.agent.sent + OwnFrames(p, SocketMessage(k, msg))
  {
  }

  lemma OwnTurnWrites(p: PeerState, ev: Event, now: nat, cfg: Config)
    requires CanHappen(p, ev, now)
    ensures TakeTurn(p, ev, now, cfg).peer.agent.sent == p.agent.sent + OwnFrames(p, ev)
  {
    match ev
    case TokenFetch(f, r) => AttemptTurnsWriteNothing(p, f, r, now, cfg);
    case ResumeReceive(r) => AttemptTurnsWriteNothing(p, r, Auth.Rejected(Auth.PlainError), now, cfg);
    case SocketOpen(k) => SocketOpenedWrites(p, k, now, cfg);
    case SocketMessage(k, msg) => MessageArrivedWrites(p, k, msg, now);
    case _ =>
  }

  /** One more frame, which says `verb` and `msg` to the hub that decodes it. */
  ghost predicate Writes(
    sent: seq<Frame>, sent': seq<Frame>, verb: string, msg: string, slug: string, coerce: Coercion)
  {
    && |sent'| == |sent| + 1 && sent'[..|sent|] == sent
    && Says(Decoded(sent'[|sent|], slug, coerce), verb, msg)
  }

  /**
   * A socket that opens for a waiting caller makes the peer ask its hub for the configuration, on the current socket.
   */
  lemma AsksForCertificates(p: PeerState, k: nat, now: nat, cfg: Config, slug: string, coerce: Coercion)
    requires CanHappen(p, SocketOpen(k), now)
    ensures var sent, sent' := p.agent.sent, TakeTurn(p, SocketOpen(k), now, cfg).peer.agent.sent;
            if p.agent.sockets[k].opener.Some? && Control.IsOpen(Control.SocketOpened(p.agent, k))
            then Writes(sent, sent', "READ", "CONFIGURATION", slug, coerce)
            else sent' == sent
  {
    SocketOpenedWrites(p, k, now, cfg);
    BuildersSay(Null, JSON_PARSE_ERROR, None, slug, coerce);
  }

  /** The interval of a ready peer makes it ask its hub for the JWS keys. */
  lemma AsksForJws(p: PeerState, t: nat, now: nat, cfg: Config, slug: string, coerce: Coercion)
    requires CanHappen(p, JwsTimer(t), now)
    ensures var sent, sent' := p.agent.sent, TakeTurn(p, JwsTimer(t), now, cfg).peer.agent.sent;
            if Control.IsOpen(p.agent) then Writes(sent, sent', "READ", "PEER_JWS", slug, coerce) else sent' == sent
  {
    BuildersSay(Null, JSON_PARSE_ERROR, None, slug, coerce);
  }

  /** A text that is not JSON, or a message that is not supported. */
  ghost predicate CallsForAnswer(msg: Option<Value>) {
    msg.None? || exists error :: Unsupported(msg.value, error)
  }

  /** The error reply names what is wrong with the message and quotes its id. */
  ghost predicate Answers(reply: Value, msg: Option<Value>) {
    && Says(reply, "NOTIFY", "ERROR")
    && if msg.None? then Field(reply, "data") == Some(Str("JSON_PARSE_ERROR"))
       else
         && (exists error | Unsupported(msg.value, error) :: Field(reply, "data") == Some(Str(error)))
         && (Field(msg.value, "id").Some? ==> Field(reply, "id") == Field(msg.value, "id"))
  }

  lemma RepliesAnswer(
    msg: Option<Value>, kind: ErrorKind, id: Option<Value>, text: Json, slug: string, coerce: Coercion)
    requires KeepsBytes(coerce) && Handle(msg) == Reply(kind, id)
    requires msg.Some? ==> msg.value == Deserialise(text, coerce)
    ensures Answers(Decoded(NotifyError(kind, id), slug, coerce), msg)
  {
    RepliesExactly(msg, kind, id);
    EnvelopeArrives(NotifyError(kind, id), slug, coerce);
    ShapeKept(Str(kind.Text()), coerce);
    if msg.Some? {
      assert Unsupported(msg.value, kind.Text());
      if id.Some? {
        ReplyQuotesMessage(text, kind, id.value, slug, coerce);
      }
    }
  }

  lemma AnswersExactly(msg: Option<Value>)
    ensures Handle(msg).Reply? <==> CallsForAnswer(msg)
  {
    if Handle(msg).Reply? {
      RepliesExactly(msg, Handle(msg).kind, Handle(msg).id);
    }
    if msg.Some? && CallsForAnswer(msg) {
      var error :| Unsupported(msg.value, error);
      var kind := if error == "UNSUPPORTED_VERB" then UNSUPPORTED_VERB else UNSUPPORTED_MESSAGE;
      RepliesExactly(msg, kind, Field(msg.value, "id"));
    }
  }

  /** A message that calls for it is answered on the open socket, in the turn in which it arrives, and no other is. */
  lemma AnswersMessage(
    p: PeerState, k: nat, msg: Option<Value>, now: nat, cfg: Config, text: Json, slug: string, coerce: Coercion)
    requires CanHappen(p, SocketMessage(k, msg), now) && !TakeTurn(p, SocketMessage(k, msg), now, cfg).crashed
    requires KeepsBytes(coerce) && (msg.Some? ==> msg.value == Deserialise(text, coerce))
    ensures var sent, sent' := p.agent.sent, TakeTurn(p, SocketMessage(k, msg), now, cfg).peer.agent.sent;
            if CallsForAnswer(msg) && Control.IsOpen(p.agent)
            then |sent'| == |sent| + 1 && sent'[..|sent|] == sent && Answers(Decoded(sent'[|sent|], slug, coerce), msg)
            else sent' == sent
  {
    AnswersExactly(msg);
    if Handle(msg).Reply? {
      RepliesAnswer(msg, Handle(msg).kind, Handle(msg).id, text, slug, coerce);
    }
  }

  /** A peer's own turns never announce JWS keys to its own hub. */
  lemma OwnTurnWritesNoJws(p: PeerState, ev: Event, now: nat, cfg: Config)
    requires CanHappen(p, ev, now)
    ensures JwsWritten(TakeTurn(p, ev, now, cfg).peer.agent.sent) == JwsWritten(p.agent.sent)
  {
    OwnTurnWrites(p, ev, now, cfg);
    var frames := OwnFrames(p, ev);
    if frames == [] {
      assert p.agent.sent + frames == p.agent.sent;
    } else {
      assert frames == [frames[0]];
      JwsWrittenAfter(p.agent.sent, frames[0]);
    }
  }

  /** The only turn that emits an announcement is the arrival of one. */
  lemma JwsEmitted(p: PeerState, ev: Event, now: nat, cfg: Config)
    requires CanHappen(p, ev, now)
    ensures var turn := TakeTurn(p, ev, now, cfg);
            && (turn.out.PeerJws? <==>
                ev.SocketMessage? && ev.msg.Some? && Says(ev.msg.value, "NOTIFY", "PEER_JWS"))
            && (turn.out.PeerJws? ==>
                  && !turn.crashed && turn.out.peerJws == Field(ev.msg.value, "data")
                  && turn.peer.own.jwsListeners == p.own.jwsListeners)
  {
    if ev.SocketMessage? && ev.msg.Some? {
      JwsExactly(ev.msg, Field(ev.msg.value, "data"));
    }
    if ev.SocketMessage? && Handle(ev.msg).OnPeerJws? {
      JwsExactly(ev.msg, Handle(ev.msg).peerJws);
    }
  }

  lemma ListenWrites(p: PeerState, out: Out, emitter: PeerState)
    ensures JwsWritten(Listen(p, out, emitter).agent.sent) ==
            JwsWritten(p.agent.sent)
            + if out.PeerJws? && emitter.own.jwsListeners && p.own.isReady && Control.IsOpen(p.agent)
              then [out.peerJws] else []
  {
    if out.PeerJws? {
      JwsWrittenAfter(p.agent.sent, NotifyPeerJws(out.peerJws));
    }
  }

  lemma StepWrites(s: AdapterState, m: Move, cfg: AdapterConfig, x: Side)
    requires CanMove(s, m)
    ensures JwsWritten(Step(s, m, cfg).Peer(x.Other()).agent.sent)
            == JwsWritten(s.Peer(x.Other()).agent.sent) + PassedOn(s, m, x)
  {
    var y := x.Other();
    StepPeer(s, m, cfg, y);
    if m.On? {
      var turn := TakeTurn(s.Peer(m.side), m.ev, s.now, cfg.Of(m.side));
      if m.side == y {
        OwnTurnWritesNoJws(s.Peer(y), m.ev, s.now, cfg.Of(y));
      } else {
        JwsEmitted(s.Peer(x), m.ev, s.now, cfg.Of(x));
        ListenWrites(s.Peer(y), turn.out, turn.peer);
      }
    }
  }

  /**
   * The JWS announcements written to the hub of one peer are exactly those the other peer received while the first was
   * ready with an open socket, in order, each once and unchanged, until the receiving peer is stopped. Nothing is
   * echoed: what a peer receives itself never appears among what it writes.
   */
  lemma {:induction false} JwsTrace(s: AdapterState, run: seq<Move>, cfg: AdapterConfig, env: Environment, x: Side)
    requires Legal(s, run, cfg, env)
    ensures JwsWritten(After(s, run, cfg, env).Peer(x.Other()).agent.sent)
            == JwsWritten(s.Peer(x.Other()).agent.sent) + PassedOnIn(s, run, cfg, env, x)
    decreases run
  {
    if run != [] {
      var next := Step(s, run[0], cfg);
      StepWrites(s, run[0], cfg, x);
      JwsTrace(next, run[1..], cfg, env, x);
      Associative(JwsWritten(s.Peer(x.Other()).agent.sent), PassedOn(s, run[0], x),
                  PassedOnIn(next, run[1..], cfg, env, x));
    }
  }

  lemma Associative<T>(first: seq<T>, second: seq<T>, third: seq<T>)
    ensures (first + second) + third == first + (second + third)
  {
  }

  // ---- Ping credentials -------------------------------------------------------------------------------------------

  /** The credential updates that peer `x` emits in one move. */
  function Updates(s: AdapterState, m: Move, cfg: AdapterConfig, x: Side): seq<StateEvent>
    requires CanMove(s, m)
  {
    if m.On? && m.side == x then
      var turn := TakeTurn(s.Peer(x), m.ev, s.now, cfg.Of(x));
      if turn.out.PingAuthDetails? && !turn.crashed then [turn.out.details] else []
    else []
  }

  ghost function UpdatesIn(
    s: AdapterState, run: seq<Move>, cfg: AdapterConfig, env: Environment, x: Side): seq<StateEvent>
    requires Legal(s, run, cfg, env)
    decreases run
  {
    if run == [] then [] else Updates(s, run[0], cfg, x) + UpdatesIn(Step(s, run[0], cfg), run[1..], cfg, env, x)
  }

  /** The last non-empty token among the updates, or `token` if there is none. */
  function LastToken(token: string, updates: seq<StateEvent>): string
    decreases updates
  {
    if updates == [] then token
    else
      var t := updates[0].accessToken;
      LastToken(if t.Some? && t.value != "" then t.value else token, updates[1..])
  }

  /** The last truthy certificates among the updates, or `certs` if there are none. */
  function LastCerts(certs: Option<Value>, updates: seq<StateEvent>): Option<Value>
    decreases updates
  {
    if updates == [] then certs
    else
      var c := updates[0].certs;
      LastCerts(if c.Some? && !IsFalsy(c.value) then c else certs, updates[1..])
  }

  lemma StepUpdatesPing(s: AdapterState, m: Move, cfg: AdapterConfig, x: Side)
    requires CanMove(s, m)
    ensures Step(s, m, cfg).Peer(x.Other()).ping ==
            if Updates(s, m, cfg, x) == [] then s.Peer(x.Other()).ping
            else Merge(s.Peer(x.Other()).ping, Updates(s, m, cfg, x)[0])
  {
    var y := x.Other();
    StepPeer(s, m, cfg, y);
    if m.On? && m.side == y {
      Invariants.PingTurn(s.Peer(y), m.ev, s.now, cfg.Of(y));
    }
  }

  /** A ping service always holds the last non-empty token and the last certificates that the other peer emitted. */
  lemma {:induction false} PingHoldsLast(s: AdapterState, run: seq<Move>, cfg: AdapterConfig, env: Environment, x: Side)
    requires Legal(s, run, cfg, env)
    ensures var before, after := s.Peer(x.Other()).ping, After(s, run, cfg, env).Peer(x.Other()).ping;
            && after.accessToken == LastToken(before.accessToken, UpdatesIn(s, run, cfg, env, x))
            && after.certs == LastCerts(before.certs, UpdatesIn(s, run, cfg, env, x))
    decreases run
  {
    if run != [] {
      StepUpdatesPing(s, run[0], cfg, x);
      PingHoldsLast(Step(s, run[0], cfg), run[1..], cfg, env, x);
      var updates := Updates(s, run[0], cfg, x);
      var rest := UpdatesIn(Step(s, run[0], cfg), run[1..], cfg, env, x);
      if updates != [] {
        assert (updates + rest)[1..] == rest;
      } else {
        assert updates + rest == rest;
      }
    }
  }
}
