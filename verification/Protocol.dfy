/** Messages of the control protocol: constants.ts, the `build` API of mcm.ts, the guards of types.ts, and `_handle`. */
module Protocol {
  import opened Prelude
  import opened Codec
  import opened Messages

  datatype Verb = READ | NOTIFY | PATCH {
    function Text(): string {
      match this case READ => "READ" case NOTIFY => "NOTIFY" case PATCH => "PATCH"
    }
  }

  datatype Message = CONFIGURATION | PEER_JWS | ERROR {
    function Text(): string {
      match this case CONFIGURATION => "CONFIGURATION" case PEER_JWS => "PEER_JWS" case ERROR => "ERROR"
    }
  }

  datatype ErrorKind = UNSUPPORTED_MESSAGE | UNSUPPORTED_VERB | JSON_PARSE_ERROR {
    function Text(): string {
      match this
      case UNSUPPORTED_MESSAGE => "UNSUPPORTED_MESSAGE"
      case UNSUPPORTED_VERB => "UNSUPPORTED_VERB"
      case JSON_PARSE_ERROR => "JSON_PARSE_ERROR"
    }
  }

  // ---- Building messages ------------------------------------------------------------------------------------------

  /** What is passed to `buildMsg`; an undefined id is replaced by a random slug when the message is written. */
  datatype Frame = Frame(verb: Verb, msg: Message, data: Option<Value>, id: Option<Value>)

  function ReadConfiguration(): Frame { Frame(READ, CONFIGURATION, Some(Obj(map[])), None) }

  function NotifyConfiguration(config: Value): Frame { Frame(NOTIFY, CONFIGURATION, Some(config), None) }

  function ReadPeerJws(): Frame { Frame(READ, PEER_JWS, Some(Obj(map[])), None) }

  function NotifyPeerJws(peerJws: Option<Value>): Frame { Frame(NOTIFY, PEER_JWS, peerJws, None) }

  function NotifyError(kind: ErrorKind, id: Option<Value>): Frame { Frame(NOTIFY, ERROR, Some(Str(kind.Text())), id) }

  /** The object handed to `serialise`; a key whose value is undefined is not written. */
  function Envelope(f: Frame, slug: string): Value {
    var id := if f.id.Some? then f.id.value else Str(slug);
    var head := map["verb" := Str(f.verb.Text()), "msg" := Str(f.msg.Text()), "id" := id];
    Obj(if f.data.Some? then head["data" := f.data.value] else head)
  }

  function BuildMsg(f: Frame, slug: string): Json {
    Serialise(Envelope(f, slug))
  }

  // ---- Guards -----------------------------------------------------------------------------------------------------

  /** `v?.key` for the keys this protocol uses, none of which exists on a string, array or Buffer. */
  function Get(v: Option<Value>, key: string): Option<Value> {
    if v.Some? && v.value.Obj? && key in v.value.fields then Some(v.value.fields[key]) else None
  }

  predicate Truthy(v: Value) {
    match v
    case Null => false
    case Bool(b) => b
    case Num(n) => n != 0.0
    case Str(s) => s != ""
    case _ => true
  }

  predicate Is(v: Value, key: string, text: string) {
    Get(Some(v), key) == Some(Str(text))
  }

  predicate IsWsPayload(v: Value) {
    && v.Obj?
    && (Is(v, "verb", "READ") || Is(v, "verb", "NOTIFY") || Is(v, "verb", "PATCH"))
    && (Is(v, "msg", "CONFIGURATION") || Is(v, "msg", "PEER_JWS") || Is(v, "msg", "ERROR"))
    && "data" in v.fields
  }

  /** `data?.outbound?.tls?.creds` */
  function CredsIn(data: Option<Value>): Option<Value> {
    Get(Get(Get(data, "outbound"), "tls"), "creds")
  }

  predicate IsCertsPayload(v: Value) {
    && Is(v, "verb", "NOTIFY")
    && Is(v, "msg", "CONFIGURATION")
    && CredsIn(Get(Some(v), "data")).Some?
    && Truthy(CredsIn(Get(Some(v), "data")).value)
  }

  function ExtractCerts(v: Value): Value
    requires IsCertsPayload(v)
  {
    CredsIn(Get(Some(v), "data")).value
  }

  // ---- Dispatch ---------------------------------------------------------------------------------------------------

  /** What `_handle` does with one message. `Throws` escapes the message listener and ends the process. */
  datatype Action =
    | Throws
    | OnCert(certs: Value)
    | OnPeerJws(peerJws: Option<Value>)
    | Reply(kind: ErrorKind, id: Option<Value>)
    | Ignore

  /** `_handle` on a decoded text; `None` is a text that `JSON.parse` rejects. */
  function Handle(decoded: Option<Value>): Action {
    if decoded.None? then Reply(JSON_PARSE_ERROR, None)
    else
      var v := decoded.value;
      var id := Get(decoded, "id");
      if v.Null? then Throws // reading `msg.msg` of null
      else if Is(v, "msg", "CONFIGURATION") then
        if Is(v, "verb", "NOTIFY") || Is(v, "verb", "PATCH") then
          if IsCertsPayload(v) then OnCert(ExtractCerts(v)) else Ignore
        else Reply(UNSUPPORTED_VERB, id)
      else if Is(v, "msg", "PEER_JWS") then
        if Is(v, "verb", "NOTIFY") then OnPeerJws(Get(decoded, "data")) else Reply(UNSUPPORTED_VERB, id)
      else if Is(v, "msg", "ERROR") then Ignore
      else Reply(UNSUPPORTED_MESSAGE, id)
  }

  // ---- Builders, guards and dispatch agree ------------------------------------------------------------------------

  function Decoded(f: Frame, slug: string, coerce: Coercion): Value {
    Deserialise(BuildMsg(f, slug), coerce)
  }

  function Wire(v: Value, coerce: Coercion): Value {
    Deserialise(Serialise(v), coerce)
  }

  lemma EnvelopeFields(f: Frame, slug: string)
    ensures var fields := Envelope(f, slug).fields;
            && "type" !in fields
            && "verb" in fields && fields["verb"] == Str(f.verb.Text())
            && "msg" in fields && fields["msg"] == Str(f.msg.Text())
            && Field(Envelope(f, slug), "data") == f.data
            && "id" in fields && fields["id"] == if f.id.Some? then f.id.value else Str(slug)
  {
    assert "data"[0] != "verb"[0] && "data"[0] != "msg"[0] && "verb"[0] != "msg"[0] && "data"[0] != "id"[0];
    assert "id"[0] != "verb"[0] && "id"[0] != "msg"[0];
    assert "type"[0] != "verb"[0] && "type"[0] != "msg"[0] && "type"[0] != "id"[0] && "type"[0] != "data"[0];
  }

  lemma ObjectArrives(fields: map<string, Value>, coerce: Coercion)
    requires "type" !in fields
    ensures Wire(Obj(fields), coerce) == Obj(map k | k in fields :: Wire(fields[k], coerce))
  {
    var j := Serialise(Obj(fields));
    var revived := map k | k in j.fields :: Deserialise(j.fields[k], coerce);
    assert Wire(Obj(fields), coerce) == Obj(revived);
    assert revived == map k | k in fields :: Wire(fields[k], coerce);
  }

  /** The envelope itself is never taken for a Buffer: it arrives as an object, field by field. */
  lemma EnvelopeArrives(f: Frame, slug: string, coerce: Coercion)
    ensures Says(Decoded(f, slug, coerce), f.verb.Text(), f.msg.Text())
    ensures Field(Decoded(f, slug, coerce), "data") ==
            if f.data.Some? then Some(Wire(f.data.value, coerce)) else None
    ensures Field(Decoded(f, slug, coerce), "id") ==
            Some(if f.id.Some? then Wire(f.id.value, coerce) else Str(slug))
  {
    var fields := Envelope(f, slug).fields;
    EnvelopeFields(f, slug);
    ObjectArrives(fields, coerce);
    ShapeKept(fields["verb"], coerce);
    ShapeKept(fields["msg"], coerce);
    ShapeKept(Str(slug), coerce);
  }

  lemma WordsDiffer()
    ensures "CONFIGURATION" != "PEER_JWS" && "CONFIGURATION" != "ERROR" && "PEER_JWS" != "ERROR"
    ensures "READ" != "NOTIFY" && "READ" != "PATCH" && "NOTIFY" != "PATCH"
  {
    assert "CONFIGURATION"[0] != "PEER_JWS"[0] && "CONFIGURATION"[0] != "ERROR"[0] && "PEER_JWS"[0] != "ERROR"[0];
    assert "READ"[0] != "NOTIFY"[0] && "READ"[0] != "PATCH"[0] && "NOTIFY"[0] != "PATCH"[0];
  }

  /** What each message of the build API says at the receiver, whatever slug and coercion. */
  lemma BuildersSay(config: Value, kind: ErrorKind, id: Option<Value>, slug: string, coerce: Coercion)
    ensures Says(Decoded(ReadConfiguration(), slug, coerce), "READ", "CONFIGURATION")
    ensures Says(Decoded(ReadPeerJws(), slug, coerce), "READ", "PEER_JWS")
    ensures Says(Decoded(NotifyConfiguration(config), slug, coerce), "NOTIFY", "CONFIGURATION")
    ensures Field(Decoded(NotifyConfiguration(config), slug, coerce), "data") == Some(Wire(config, coerce))
    ensures AnnouncesJws(Decoded(NotifyPeerJws(Some(config)), slug, coerce), Some(Wire(config, coerce)))
    ensures Says(Decoded(NotifyError(kind, id), slug, coerce), "NOTIFY", "ERROR")
  {
    EnvelopeArrives(ReadConfiguration(), slug, coerce);
    EnvelopeArrives(ReadPeerJws(), slug, coerce);
    EnvelopeArrives(NotifyConfiguration(config), slug, coerce);
    EnvelopeArrives(NotifyPeerJws(Some(config)), slug, coerce);
    EnvelopeArrives(NotifyError(kind, id), slug, coerce);
  }

  // ---- The guards -------------------------------------------------------------------------------------------------

  lemma TruthyExactly(v: Value)
    ensures Truthy(v) <==> !IsFalsy(v)
  {
  }

  lemma GetExactly(v: Value, key: string)
    ensures Get(Some(v), key) == Field(v, key)
  {
  }

  /**
   * The payload guard accepts exactly the objects that could have been built: with a known verb and kind, and with
   * data.
   */
  lemma PayloadExactly(v: Value)
    ensures IsWsPayload(v) <==>
            && (exists verb, msg |
                  verb in {"READ", "NOTIFY", "PATCH"} && msg in {"CONFIGURATION", "PEER_JWS", "ERROR"} ::
                  Says(v, verb, msg))
            && Field(v, "data").Some?
  {
    if IsWsPayload(v) {
      var verb := if Is(v, "verb", "READ") then "READ" else if Is(v, "verb", "NOTIFY") then "NOTIFY" else "PATCH";
      var msg :=
        if Is(v, "msg", "CONFIGURATION") then "CONFIGURATION"
        else if Is(v, "msg", "PEER_JWS") then "PEER_JWS" else "ERROR";
      assert Says(v, verb, msg);
    }
  }

  /** A built message passes the payload guard at the receiver exactly when its data was defined. */
  lemma BuiltIsWsPayload(f: Frame, slug: string, coerce: Coercion)
    ensures IsWsPayload(Decoded(f, slug, coerce)) <==> f.data.Some?
  {
    EnvelopeArrives(f, slug, coerce);
    match f.verb
    case READ =>
    case NOTIFY =>
    case PATCH =>
  }

  /**
   * The certificates guard accepts exactly the configuration announcements with truthy credentials at
   * `outbound.tls.creds`.
   */
  lemma CertsPayloadExactly(v: Value)
    ensures IsCertsPayload(v) <==> exists certs :: BringsCerts(v, certs)
    ensures IsCertsPayload(v) ==> BringsCerts(v, ExtractCerts(v))
    ensures forall certs :: BringsCerts(v, certs) ==> IsCertsPayload(v) && ExtractCerts(v) == certs
  {
    forall certs | BringsCerts(v, certs) ensures IsCertsPayload(v) && ExtractCerts(v) == certs {
      TruthyExactly(certs);
    }
    if IsCertsPayload(v) {
      TruthyExactly(ExtractCerts(v));
      assert BringsCerts(v, ExtractCerts(v));
    }
  }

  // ---- Dispatch, by what the message says -------------------------------------------------------------------------

  /** Exactly the certificate announcements lead to new credentials, and to theirs; a PATCH never does. */
  lemma CertsExactly(decoded: Option<Value>, certs: Value)
    ensures Handle(decoded) == OnCert(certs) <==> decoded.Some? && BringsCerts(decoded.value, certs)
    ensures decoded.Some? && IsCertsPayload(decoded.value) ==> Handle(decoded) == OnCert(ExtractCerts(decoded.value))
    ensures decoded.Some? && Says(decoded.value, "NOTIFY", "CONFIGURATION")
            && (forall c :: !BringsCerts(decoded.value, c)) ==>
              Handle(decoded).Ignore?
    ensures decoded.Some? && Says(decoded.value, "PATCH", "CONFIGURATION") ==> Handle(decoded).Ignore?
  {
    WordsDiffer();
    if decoded.Some? {
      CertsPayloadExactly(decoded.value);
    }
  }

  /** Exactly the JWS announcements are announced, with their data, whatever it is. */
  lemma JwsExactly(decoded: Option<Value>, peerJws: Option<Value>)
    ensures Handle(decoded) == OnPeerJws(peerJws) <==> decoded.Some? && AnnouncesJws(decoded.value, peerJws)
  {
    WordsDiffer();
  }

  /**
   * Exactly the texts that cannot be parsed and the messages that are not supported are answered, with their own id.
   */
  lemma RepliesExactly(decoded: Option<Value>, kind: ErrorKind, id: Option<Value>)
    ensures Handle(decoded) == Reply(kind, id) <==>
            if decoded.None? then kind.Text() == "JSON_PARSE_ERROR" && id.None?
            else Unsupported(decoded.value, kind.Text()) && id == Field(decoded.value, "id")
  {
    WordsDiffer();
    assert "JSON_PARSE_ERROR"[0] != "UNSUPPORTED_VERB"[0] && "UNSUPPORTED_VERB"[12] != "UNSUPPORTED_MESSAGE"[12];
  }

  /** `_handle` throws on the text `null` and on nothing else. */
  lemma ThrowsExactlyOnNull(decoded: Option<Value>)
    ensures Handle(decoded).Throws? <==> decoded == Some(Null)
  {
  }

  // ---- Built, sent and dispatched ---------------------------------------------------------------------------------

  /** A configuration announcement leads to its credentials as they are on the wire, and to nothing without them. */
  lemma ConfigurationNotifyExactly(config: Value, certs: Value, slug: string, coerce: Coercion)
    ensures var decoded := Some(Decoded(NotifyConfiguration(config), slug, coerce));
            && (Handle(decoded) == OnCert(certs) <==> HasCreds(Wire(config, coerce), certs) && !IsFalsy(certs))
            && ((forall c :: !(HasCreds(Wire(config, coerce), c) && !IsFalsy(c))) ==> Handle(decoded).Ignore?)
  {
    var v := Decoded(NotifyConfiguration(config), slug, coerce);
    BuildersSay(config, JSON_PARSE_ERROR, None, slug, coerce);
    CertsExactly(Some(v), certs);
    assert forall c :: BringsCerts(v, c) <==> HasCreds(Wire(config, coerce), c) && !IsFalsy(c);
  }

  /**
   * So the sender's own credentials reach `onCert` when the reviver takes nothing in the configuration for a Buffer.
   */
  lemma ConfigurationNotifyDelivers(config: Value, certs: Value, slug: string, coerce: Coercion)
    requires KeepsBytes(coerce) && CollisionFree(config)
    requires HasCreds(config, certs) && !IsFalsy(certs)
    ensures Handle(Some(Decoded(NotifyConfiguration(config), slug, coerce))) == OnCert(certs)
  {
    RoundTripExact(config, coerce);
    ConfigurationNotifyExactly(config, certs, slug, coerce);
  }

  /** A JWS announcement that is built and sent announces its keys, as they are on the wire. */
  lemma JwsNotifyDelivers(peerJws: Value, slug: string, coerce: Coercion)
    ensures Handle(Some(Decoded(NotifyPeerJws(Some(peerJws)), slug, coerce))) == OnPeerJws(Some(Wire(peerJws, coerce)))
  {
    BuildersSay(peerJws, JSON_PARSE_ERROR, None, slug, coerce);
    JwsExactly(Some(Decoded(NotifyPeerJws(Some(peerJws)), slug, coerce)), Some(Wire(peerJws, coerce)));
  }

  /** Keys that were decoded, and are built and sent on, are announced unchanged at the other hub. */
  lemma ForwardedJwsArrives(j: Json, peerJws: Value, slug: string, coerce: Coercion)
    requires KeepsBytes(coerce) && AnnouncesJws(Deserialise(j, coerce), Some(peerJws))
    ensures Handle(Some(Decoded(NotifyPeerJws(Some(peerJws)), slug, coerce))) == OnPeerJws(Some(peerJws))
  {
    var v := Deserialise(j, coerce);
    RevivedIsCollisionFree(j, coerce);
    assert CollisionFree(v.fields["data"]);
    RoundTripExact(peerJws, coerce);
    JwsNotifyDelivers(peerJws, slug, coerce);
  }

  /** An error reply quotes the id of the message it answers, unchanged, and names the error. */
  lemma ReplyQuotesMessage(j: Json, kind: ErrorKind, id: Value, slug: string, coerce: Coercion)
    requires KeepsBytes(coerce) && Handle(Some(Deserialise(j, coerce))) == Reply(kind, Some(id))
    ensures var reply := Decoded(NotifyError(kind, Some(id)), slug, coerce);
            && Says(reply, "NOTIFY", "ERROR")
            && Field(reply, "id") == Field(Deserialise(j, coerce), "id") == Some(id)
            && (exists error | Unsupported(Deserialise(j, coerce), error) :: Field(reply, "data") == Some(Str(error)))
  {
    var v := Deserialise(j, coerce);
    RepliesExactly(Some(v), kind, Some(id));
    RevivedIsCollisionFree(j, coerce);
    assert CollisionFree(v.fields["id"]);
    RoundTripExact(id, coerce);
    EnvelopeArrives(NotifyError(kind, Some(id)), slug, coerce);
    ShapeKept(Str(kind.Text()), coerce);
    assert Unsupported(v, kind.Text());
  }

  // ---- No reply storms --------------------------------------------------------------------------------------------

  /** A text on its way to some agent; `None` is a text that is not JSON. */
  datatype Packet = Packet(to: nat, text: Option<Json>)

  function Decode(text: Option<Json>, coerce: Coercion): Option<Value> {
    if text.Some? then Some(Deserialise(text.value, coerce)) else None
  }

  /** One agent takes one packet. Its reply, if any, goes to any agent, or nowhere when the socket is not open. */
  ghost predicate Delivery(before: seq<Packet>, after: seq<Packet>, coerce: Coercion) {
    exists i: nat, replies :: Takes(before, i, replies, coerce) && after == before[..i] + before[i + 1..] + replies
  }

  ghost predicate Takes(before: seq<Packet>, i: nat, replies: seq<Packet>, coerce: Coercion) {
    && i < |before|
    && (replies == []
        || (exists to: nat, slug: string :: IsReplyTo(before[i], replies, to, slug, coerce)))
  }

  ghost predicate IsReplyTo(p: Packet, replies: seq<Packet>, to: nat, slug: string, coerce: Coercion) {
    var action := Handle(Decode(p.text, coerce));
    action.Reply? && replies == [Packet(to, Some(BuildMsg(NotifyError(action.kind, action.id), slug)))]
  }

  /** Two for a packet that may be answered, one for a packet that will not be. */
  function Weight(packets: seq<Packet>, coerce: Coercion): (w: nat)
    ensures w <= 2 * |packets|
  {
    if packets == [] then 0
    else (if Handle(Decode(packets[0].text, coerce)).Reply? then 2 else 1) + Weight(packets[1..], coerce)
  }

  lemma {:induction false} WeightOfConcat(xs: seq<Packet>, ys: seq<Packet>, coerce: Coercion)
    ensures Weight(xs + ys, coerce) == Weight(xs, coerce) + Weight(ys, coerce)
  {
    if xs == [] {
      assert xs + ys == ys;
    } else {
      assert (xs + ys)[1..] == xs[1..] + ys;
      WeightOfConcat(xs[1..], ys, coerce);
    }
  }

  /** An error message is never answered, whatever id it quotes. */
  lemma ErrorsAreNotAnswered(kind: ErrorKind, id: Option<Value>, slug: string, coerce: Coercion)
    ensures Handle(Some(Decoded(NotifyError(kind, id), slug, coerce))).Ignore?
  {
    BuildersSay(Null, kind, id, slug, coerce);
    WordsDiffer();
  }

  lemma DeliveryLosesWeight(before: seq<Packet>, after: seq<Packet>, coerce: Coercion)
    requires Delivery(before, after, coerce)
    ensures Weight(after, coerce) < Weight(before, coerce)
  {
    var i: nat, replies :| Takes(before, i, replies, coerce) && after == before[..i] + before[i + 1..] + replies;
    assert before == before[..i] + ([before[i]] + before[i + 1..]);
    WeightOfConcat(before[..i], [before[i]] + before[i + 1..], coerce);
    WeightOfConcat([before[i]], before[i + 1..], coerce);
    WeightOfConcat(before[..i] + before[i + 1..], replies, coerce);
    WeightOfConcat(before[..i], before[i + 1..], coerce);
    if replies != [] {
      var to: nat, slug: string :| IsReplyTo(before[i], replies, to, slug, coerce);
      var action := Handle(Decode(before[i].text, coerce));
      ErrorsAreNotAnswered(action.kind, action.id, slug, coerce);
    }
  }

  /** From any packets in flight, at most two deliveries per packet can ever happen. */
  lemma {:induction false} NoReplyStorm(run: seq<seq<Packet>>, coerce: Coercion)
    requires run != []
    requires forall i | 0 <= i < |run| - 1 :: Delivery(run[i], run[i + 1], coerce)
    ensures |run| - 1 <= Weight(run[0], coerce) <= 2 * |run[0]|
  {
    if |run| > 1 {
      assert Delivery(run[0], run[0 + 1], coerce);
      DeliveryLosesWeight(run[0], run[1], coerce);
      forall i | 0 <= i < |run[1..]| - 1 ensures Delivery(run[1..][i], run[1..][i + 1], coerce) {
        assert Delivery(run[i + 1], run[i + 1 + 1], coerce);
      }
      NoReplyStorm(run[1..], coerce);
    }
  }
}
