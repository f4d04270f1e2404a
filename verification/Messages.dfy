/**
 * What the messages of the control protocol say, read off their fields; the vocabulary of the theorems about dispatch.
 */
module Messages {
  import opened Prelude
  import opened Codec

  /** The values that JavaScript converts to false. */
  predicate IsFalsy(v: Value) {
    v == Null || v == Bool(false) || v == Num(0.0) || v == Str("")
  }

  predicate Says(v: Value, verb: string, msg: string) {
    && v.Obj?
    && "verb" in v.fields && v.fields["verb"] == Str(verb)
    && "msg" in v.fields && v.fields["msg"] == Str(msg)
  }

  /** The value under a key of an object, undefined in everything else. */
  function Field(v: Value, key: string): Option<Value> {
    match v
    case Obj(fields) => if key in fields then Some(fields[key]) else None
    case _ => None
  }

  /** The object `data` has `certs` at the path `outbound.tls.creds`. */
  predicate HasCreds(data: Value, certs: Value) {
    && data.Obj? && "outbound" in data.fields
    && var outbound := data.fields["outbound"];
    && outbound.Obj? && "tls" in outbound.fields
    && var tls := outbound.fields["tls"];
    && tls.Obj? && "creds" in tls.fields && tls.fields["creds"] == certs
  }

  /** A configuration announcement that brings credentials. */
  predicate BringsCerts(v: Value, certs: Value) {
    && Says(v, "NOTIFY", "CONFIGURATION")
    && "data" in v.fields && HasCreds(v.fields["data"], certs)
    && !IsFalsy(certs)
  }

  /** Credentials with a certificate in them. */
  predicate WithCert(certs: Value) {
    Field(certs, "cert").Some? && !IsFalsy(Field(certs, "cert").value)
  }

  /** An announcement of JWS keys. */
  predicate AnnouncesJws(v: Value, peerJws: Option<Value>) {
    Says(v, "NOTIFY", "PEER_JWS") && peerJws == Field(v, "data")
  }

  /** A message that is not supported, and the text of the error that answers it. */
  predicate Unsupported(v: Value, error: string) {
    && !v.Null?
    && var verb, msg := Field(v, "verb"), Field(v, "msg");
    if msg == Some(Str("CONFIGURATION")) then
      error == "UNSUPPORTED_VERB" && verb != Some(Str("NOTIFY")) && verb != Some(Str("PATCH"))
    else if msg == Some(Str("PEER_JWS")) then
      error == "UNSUPPORTED_VERB" && verb != Some(Str("NOTIFY"))
    else
      error == "UNSUPPORTED_MESSAGE" && msg != Some(Str("ERROR"))
  }
}
