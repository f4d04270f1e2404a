/** The credentials with which a peer answers pings for the other peer: src/domain/InboundPingService.ts. */
module Ping {
  import opened Prelude
  import opened Codec
  import opened Protocol

  /** A partial update of a peer's credentials, sent to its own HTTP server and to the other peer's ping service. */
  datatype StateEvent = StateEvent(accessToken: Option<string>, certs: Option<Value>)

  datatype PingState = PingState(certs: Option<Value>, accessToken: string)

  const INITIAL_PING := PingState(None, "")

  /** `updateAuthDetails`: certificates that are falsy and tokens that are empty leave the old ones in place. */
  function Merge(s: PingState, e: StateEvent): PingState {
    PingState(
      if e.certs.Some? && Truthy(e.certs.value) then e.certs else s.certs,
      if e.accessToken.Some? && e.accessToken.value != "" then e.accessToken.value else s.accessToken)
  }

  /** The PUT /ping callback that answers POST /ping, or the rejection that is only logged. */
  datatype Callback = Put(endpoint: string, certs: Value, bearer: string, destination: string) | NotSent

  predicate HasCert(certs: Value) {
    var cert := Get(Some(certs), "cert");
    cert.Some? && Truthy(cert.value)
  }

  /** `sendPutPingRequest`; `source` is the fspiop-source header, "" when absent. */
  function PutPing(s: PingState, endpoint: string, source: string): Callback {
    if source == "" || s.certs.None? || !HasCert(s.certs.value) then NotSent
    else Put(endpoint, s.certs.value, s.accessToken, source)
  }

  class InboundPingService {
    var mTlsCreds: Option<Value>
    var accessToken: string

    ghost function Abs(): PingState reads this {
      PingState(mTlsCreds, accessToken)
    }

    constructor ()
      ensures Abs() == INITIAL_PING
    {
      mTlsCreds, accessToken := None, "";
    }

    method UpdateAuthDetails(e: StateEvent)
      modifies this
      ensures Abs() == Merge(old(Abs()), e)
    {
      if e.certs.Some? && Truthy(e.certs.value) {
        mTlsCreds := e.certs;
      }
      if e.accessToken.Some? && e.accessToken.value != "" {
        accessToken := e.accessToken.value;
      }
    }
  }
}
