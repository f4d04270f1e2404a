/** The self-rescheduling access-token refresh of src/infra/AuthClient.ts, with the error classes of src/errors.ts. */
module Auth {
  import opened Prelude

  const IN_ADVANCE_PERIOD_SEC := 30

  datatype Config = Config(updateIntervalSec: int, retrySec: int, retryDnsSec: int)

  // ---- Errors and token responses ---------------------------------------------------------------------------------

  datatype ErrorCode = EAI_AGAIN | ENOTFOUND | OtherCode

  datatype Thrown = AxiosError(code: ErrorCode) | PlainError | NotAnError

  predicate IsDnsRelated(e: Thrown) {
    e.AxiosError? && (e.code.EAI_AGAIN? || e.code.ENOTFOUND?)
  }

  /** What the token endpoint answers; an absent field reads as "" or 0. `issuedAt` is the issuer's clock. */
  datatype Response = Body(accessToken: string, expiresIn: int, issuedAt: nat) | Rejected(error: Thrown)

  datatype OidcData = Token(value: string, expiresIn: int, issuedAt: nat) | NoToken(error: Thrown)

  function GetOidcToken(r: Response): OidcData {
    match r
    case Rejected(e) => NoToken(e)
    case Body(token, expiresIn, issuedAt) =>
      if token == "" || expiresIn == 0 then NoToken(PlainError) else Token(token, expiresIn, issuedAt)
  }

  /** The error of `makeAccessTokenUpdatesResult`, if the update failed: anything but an Error is wrapped in one. */
  function UpdateError(d: OidcData): Option<Thrown> {
    if d.Token? then None else Some(if d.error.NotAnError? then PlainError else d.error)
  }

  function UpdateTimeoutSec(d: OidcData, cfg: Config): int {
    match d
    case NoToken(e) => if IsDnsRelated(e) then cfg.retryDnsSec else cfg.retrySec
    case Token(_, expiresIn, _) =>
      (if cfg.updateIntervalSec < expiresIn then cfg.updateIntervalSec else expiresIn) - IN_ADVANCE_PERIOD_SEC
  }

  function EmittedToken(d: OidcData): string {
    if d.Token? then d.value else ""
  }

  // ---- What a response means --------------------------------------------------------------------------------------

  predicate BringsToken(r: Response) {
    match r
    case Body(token, expiresIn, _) => token != "" && expiresIn != 0
    case Rejected(_) => false
  }

  /** A request that failed because the name could not be resolved. */
  predicate IsDnsFailure(r: Response) {
    r == Rejected(AxiosError(EAI_AGAIN)) || r == Rejected(AxiosError(ENOTFOUND))
  }

  /** The refresh loop goes on `sec` seconds after response `r`. */
  predicate RefreshesAfter(r: Response, cfg: Config, sec: int) {
    if BringsToken(r) then
      // 30 s before the update interval or the life of the token ends, whichever is sooner
      && sec + 30 <= cfg.updateIntervalSec && sec + 30 <= r.expiresIn
      && (sec + 30 == cfg.updateIntervalSec || sec + 30 == r.expiresIn)
    else sec == if IsDnsFailure(r) then cfg.retryDnsSec else cfg.retrySec
  }

  /** What the response makes the loop emit: the token with its life, or "". */
  function EmissionFor(r: Response, loop: nat, now: nat): Emission {
    match r
    case Body(token, expiresIn, issuedAt) =>
      if token != "" && expiresIn != 0 then Emission(token, loop, issuedAt + 1000 * expiresIn, now - issuedAt)
      else Emission("", loop, now, 0)
    case Rejected(_) => Emission("", loop, now, 0)
  }

  /** The update succeeds exactly with a token; its error is DNS-related exactly when the name could not be resolved. */
  lemma ResponseExactly(r: Response, cfg: Config, loop: nat, now: nat)
    ensures UpdateError(GetOidcToken(r)).None? <==> BringsToken(r)
    ensures GetOidcToken(r).Token? <==> BringsToken(r)
    ensures !BringsToken(r) ==> (IsDnsRelated(UpdateError(GetOidcToken(r)).value) <==> IsDnsFailure(r))
    ensures RefreshesAfter(r, cfg, UpdateTimeoutSec(GetOidcToken(r), cfg))
    ensures EmissionOf(GetOidcToken(r), loop, now) == EmissionFor(r, loop, now)
    ensures EmittedToken(GetOidcToken(r)) == EmissionFor(r, loop, now).token
  {
  }

  // ---- State and turns --------------------------------------------------------------------------------------------

  /** A pending refresh timer. `loop` names the chain of refreshes it belongs to. */
  datatype Timer = Timer(due: nat, loop: nat)

  /**
   * A token request in flight. `due` is when the timer that sent it was due; `awaited` tells that a start attempt waits
   * for it.
   */
  datatype Fetch = Fetch(due: nat, loop: nat, awaited: bool)

  /** The last call of the `emitNewToken` callback. */
  datatype Emission = Emission(token: string, loop: nat, expiresAt: int, transit: int)

  /** Where a loop of refreshes stands. */
  datatype Place = Waiting(timer: nat) | Requesting(fetch: nat) | Ended

  /** `timer` is the field of the class; `places`, `ended` and `last` only record history. */
  datatype AuthState = AuthState(
    timer: Option<nat>,
    timers: map<nat, Timer>,
    fetches: map<nat, Fetch>,
    next: nat,
    loops: nat,
    places: map<nat, Place>,
    ended: nat,
    last: Option<Emission>)

  const INITIAL_AUTH := AuthState(None, map[], map[], 0, 0, map[], 0, None)

  /** A start attempt calls `startAccessTokenUpdates`. */
  function Begin(s: AuthState, now: nat): AuthState {
    s.(fetches := s.fetches[s.next := Fetch(now, s.loops, true)],
    places := s.places[s.loops := Requesting(s.next)],
    next := s.next + 1,
    loops := s.loops + 1)
  }

  /** A refresh timer fires and calls `startAccessTokenUpdates` again. */
  function TimerFires(s: AuthState, t: nat): AuthState
    requires t in s.timers
  {
    s.(timers := s.timers - {t},
    fetches := s.fetches[s.next := Fetch(s.timers[t].due, s.timers[t].loop, false)],
    places := s.places[s.timers[t].loop := Requesting(s.next)],
    next := s.next + 1)
  }

  function EmissionOf(d: OidcData, loop: nat, now: nat): Emission {
    if d.Token? then Emission(d.value, loop, d.issuedAt + 1000 * d.expiresIn, now - d.issuedAt)
    else Emission("", loop, now, 0)
  }

  /** Request `f` is over and the next refresh of its loop is due at `due`. */
  function Rescheduled(s: AuthState, f: nat, due: nat, e: Emission): AuthState
    requires f in s.fetches
  {
    s.(fetches := s.fetches - {f},
    timers := s.timers[s.next := Timer(due, s.fetches[f].loop)],
    places := s.places[s.fetches[f].loop := Waiting(s.next)],
    timer := Some(s.next),
    next := s.next + 1,
    last := Some(e))
  }

  /**
   * The request settles: the token, or "", is emitted and the next refresh is scheduled, whatever happened meanwhile.
   */
  function FetchDone(s: AuthState, f: nat, r: Response, now: nat, cfg: Config): AuthState
    requires f in s.fetches
  {
    var d := GetOidcToken(r);
    Rescheduled(s, f, now + Delay(1000 * UpdateTimeoutSec(d, cfg)), EmissionOf(d, s.fetches[f].loop, now))
  }

  /** Whether `stopUpdates` finds its stored timer still pending. */
  predicate CanStop(s: AuthState) {
    s.timer.Some? && s.timer.value in s.timers
  }

  function Halt(s: AuthState): AuthState {
    if CanStop(s) then
      s.(timer := None,
      timers := Clear(s.timers, s.timer),
      places := s.places[s.timers[s.timer.value].loop := Ended],
      ended := s.ended + 1)
    else s.(timer := None)
  }

  // ---- Conservation of refresh loops ------------------------------------------------------------------------------

  /** Each loop started is either ended, or has one pending timer, or has one request in flight. */
  ghost predicate LoopsConserved(s: AuthState) {
    && TimersPlaced(s) && FetchesPlaced(s) && PlacesHold(s)
    && |s.timers| + |s.fetches| + s.ended == s.loops
  }

  ghost predicate TimersPlaced(s: AuthState) {
    forall t :: t in s.timers ==>
                  t < s.next && s.timers[t].loop in s.places && s.places[s.timers[t].loop] == Waiting(t)
  }

  ghost predicate FetchesPlaced(s: AuthState) {
    forall f :: f in s.fetches ==>
                  f < s.next && s.fetches[f].loop in s.places && s.places[s.fetches[f].loop] == Requesting(f)
  }

  ghost predicate PlacesHold(s: AuthState) {
    && (forall l: nat :: l in s.places <==> l < s.loops)
    && (forall l :: l in s.places ==> PlaceHolds(s, s.places[l], l))
  }

  ghost predicate PlaceHolds(s: AuthState, place: Place, loop: nat) {
    match place
    case Waiting(t) => t in s.timers && s.timers[t].loop == loop
    case Requesting(f) => f in s.fetches && s.fetches[f].loop == loop
    case Ended => true
  }

  lemma CountAfterAdd<T>(m: map<nat, T>, k: nat, v: T)
    requires k !in m
    ensures |m[k := v]| == |m| + 1
  {
  }

  lemma CountAfterRemove<T>(m: map<nat, T>, k: nat)
    requires k in m
    ensures |m - {k}| == |m| - 1
  {
    CountAfterAdd(m - {k}, k, m[k]);
    assert (m - {k})[k := m[k]] == m;
  }

  lemma BeginKeepsPlaces(s: AuthState, now: nat)
    requires TimersPlaced(s) && FetchesPlaced(s) && PlacesHold(s)
    ensures TimersPlaced(Begin(s, now)) && FetchesPlaced(Begin(s, now)) && PlacesHold(Begin(s, now))
  {
  }

  lemma BeginKeepsLoops(s: AuthState, now: nat)
    requires LoopsConserved(s)
    ensures LoopsConserved(Begin(s, now))
  {
    BeginKeepsPlaces(s, now);
    CountAfterAdd(s.fetches, s.next, Fetch(now, s.loops, true));
  }

  lemma TimerFiresKeepsPlaces(s: AuthState, t: nat)
    requires TimersPlaced(s) && FetchesPlaced(s) && PlacesHold(s) && t in s.timers
    ensures TimersPlaced(TimerFires(s, t)) && FetchesPlaced(TimerFires(s, t)) && PlacesHold(TimerFires(s, t))
  {
  }

  lemma TimerFiresKeepsLoops(s: AuthState, t: nat)
    requires LoopsConserved(s) && t in s.timers
    ensures LoopsConserved(TimerFires(s, t))
  {
    TimerFiresKeepsPlaces(s, t);
    CountAfterAdd(s.fetches, s.next, TimerFires(s, t).fetches[s.next]);
    CountAfterRemove(s.timers, t);
  }

  lemma RescheduledKeepsPlaces(s: AuthState, f: nat, due: nat, e: Emission)
    requires TimersPlaced(s) && FetchesPlaced(s) && f in s.fetches
    ensures TimersPlaced(Rescheduled(s, f, due, e)) && FetchesPlaced(Rescheduled(s, f, due, e))
  {
  }

  lemma RescheduledHold(s: AuthState, f: nat, due: nat, e: Emission)
    requires TimersPlaced(s) && FetchesPlaced(s) && PlacesHold(s) && f in s.fetches
    ensures PlacesHold(Rescheduled(s, f, due, e))
  {
  }

  lemma RescheduledCount(s: AuthState, f: nat, due: nat, e: Emission)
    requires TimersPlaced(s) && f in s.fetches
    ensures var s' := Rescheduled(s, f, due, e);
            |s'.timers| + |s'.fetches| == |s.timers| + |s.fetches|
  {
    var s' := Rescheduled(s, f, due, e);
    CountAfterAdd(s.timers, s.next, s'.timers[s.next]);
    CountAfterRemove(s.fetches, f);
  }

  lemma RescheduledKeepsLoops(s: AuthState, f: nat, due: nat, e: Emission)
    requires LoopsConserved(s) && f in s.fetches
    ensures LoopsConserved(Rescheduled(s, f, due, e))
  {
    RescheduledKeepsPlaces(s, f, due, e);
    RescheduledHold(s, f, due, e);
    RescheduledCount(s, f, due, e);
  }

  lemma FetchDoneKeepsLoops(s: AuthState, f: nat, r: Response, now: nat, cfg: Config)
    requires LoopsConserved(s) && f in s.fetches
    ensures LoopsConserved(FetchDone(s, f, r, now, cfg))
  {
    var d := GetOidcToken(r);
    var due := now + Delay(1000 * UpdateTimeoutSec(d, cfg));
    var e := EmissionOf(d, s.fetches[f].loop, now);
    assert FetchDone(s, f, r, now, cfg) == Rescheduled(s, f, due, e);
    RescheduledKeepsLoops(s, f, due, e);
  }

  lemma HaltKeepsPlaces(s: AuthState)
    requires TimersPlaced(s) && FetchesPlaced(s) && PlacesHold(s)
    ensures TimersPlaced(Halt(s)) && FetchesPlaced(Halt(s)) && PlacesHold(Halt(s))
  {
  }

  /** `stopUpdates` ends one loop when its stored timer is still pending, and no loop otherwise. */
  lemma StopUpdatesEnds(s: AuthState)
    requires LoopsConserved(s)
    ensures LoopsConserved(Halt(s))
    ensures Halt(s).fetches == s.fetches
    ensures |Halt(s).timers| + |Halt(s).fetches| == |s.timers| + |s.fetches| - if CanStop(s) then 1 else 0
  {
    HaltKeepsPlaces(s);
    if CanStop(s) {
      CountAfterRemove(s.timers, s.timer.value);
    }
  }

  /** A single loop is running, or none, and its timer is the stored one. */
  ghost predicate AllStoppable(s: AuthState) {
    forall t :: t in s.timers ==> s.timer == Some(t)
  }

  /** `stopUpdates` leaves no timer pending exactly when the stored one was the only one. */
  lemma StopLeavesNone(s: AuthState)
    ensures Halt(s).timers == map[] <==> AllStoppable(s)
  {
    if Halt(s).timers == map[] {
      forall t | t in s.timers ensures s.timer == Some(t) {
        assert t !in Halt(s).timers;
      }
    }
  }

  /** In particular no loop has two timers, two requests, or one of each. */
  lemma OnePlacePerLoop(s: AuthState, loop: nat)
    requires LoopsConserved(s)
    ensures forall t, u :: t in s.timers && u in s.timers && s.timers[t].loop == s.timers[u].loop == loop ==> t == u
    ensures forall f, g :: f in s.fetches && g in s.fetches && s.fetches[f].loop == s.fetches[g].loop == loop ==> f == g
    ensures forall t, f :: t in s.timers && f in s.fetches && s.timers[t].loop == loop ==> s.fetches[f].loop != loop
    ensures loop < s.loops ==> loop in s.places && PlaceHolds(s, s.places[loop], loop)
  {
  }

  // ---- Freshness of the emitted token -----------------------------------------------------------------------------

  /** The refresh that follows the last token is due its transit time plus at least 30 s before it expires. */
  ghost predicate RefreshAhead(s: AuthState) {
    s.last.Some? && s.last.value.token != "" ==>
      && (forall t :: t in s.timers && s.timers[t].loop == s.last.value.loop ==>
                        s.timers[t].due + 30_000 <= s.last.value.expiresAt + s.last.value.transit)
      && (forall f :: f in s.fetches && s.fetches[f].loop == s.last.value.loop ==>
                        s.fetches[f].due + 30_000 <= s.last.value.expiresAt + s.last.value.transit)
  }

  /** Every token in the response lives for a whole number of seconds, at least 31. */
  predicate LongLived(r: Response) {
    BringsToken(r) ==> r.expiresIn >= 31
  }

  /**
   * The last token's transit time plus the lag of the refresh after it (timer lateness and request time) is at most 30
   * s.
   */
  ghost predicate LagBounded(s: AuthState, now: nat) {
    s.last.Some? ==>
      && (forall t :: t in s.timers && s.timers[t].loop == s.last.value.loop ==>
                        now - s.timers[t].due + s.last.value.transit <= 30_000)
      && (forall f :: f in s.fetches && s.fetches[f].loop == s.last.value.loop ==>
                        now - s.fetches[f].due + s.last.value.transit <= 30_000)
  }

  ghost predicate Stopped(s: AuthState, loop: nat) {
    loop in s.places && s.places[loop].Ended?
  }

  /** The last emitted token is "", or has not expired, or its refresh loop was stopped. */
  ghost predicate Fresh(s: AuthState, now: nat) {
    s.last.Some? && s.last.value.token != "" && !Stopped(s, s.last.value.loop) ==> now <= s.last.value.expiresAt
  }

  ghost predicate LastLoopKnown(s: AuthState) {
    s.last.Some? ==> s.last.value.loop < s.loops
  }

  lemma BeginKeepsAhead(s: AuthState, now: nat)
    requires LastLoopKnown(s)
    ensures LastLoopKnown(Begin(s, now))
    ensures RefreshAhead(s) ==> RefreshAhead(Begin(s, now))
  {
  }

  lemma TimerFiresKeepsAhead(s: AuthState, t: nat)
    requires LastLoopKnown(s) && t in s.timers
    ensures LastLoopKnown(TimerFires(s, t))
    ensures RefreshAhead(s) ==> RefreshAhead(TimerFires(s, t))
  {
  }

  lemma HaltKeepsAhead(s: AuthState)
    requires LastLoopKnown(s)
    ensures LastLoopKnown(Halt(s))
    ensures RefreshAhead(s) ==> RefreshAhead(Halt(s))
  {
  }

  lemma FetchDoneKeepsAhead(s: AuthState, f: nat, r: Response, now: nat, cfg: Config)
    requires LoopsConserved(s) && f in s.fetches
    ensures LastLoopKnown(FetchDone(s, f, r, now, cfg))
    ensures LongLived(r) ==> RefreshAhead(FetchDone(s, f, r, now, cfg))
  {
  }

  lemma FreshWhileLagBounded(s: AuthState, now: nat)
    requires LoopsConserved(s) && RefreshAhead(s) && LastLoopKnown(s) && LagBounded(s, now)
    ensures Fresh(s, now)
  {
    if s.last.Some? {
      assert PlaceHolds(s, s.places[s.last.value.loop], s.last.value.loop);
    }
  }

  /** The first token of a run, issued and received at time 0, which lives for `expiresIn` seconds. */
  function FirstToken(expiresIn: int, cfg: Config): AuthState {
    FetchDone(Begin(INITIAL_AUTH, 0), 0, Body("t", expiresIn, 0), 0, cfg)
  }

  lemma FirstTokenState(expiresIn: int, cfg: Config)
    requires expiresIn != 0 && cfg.updateIntervalSec >= expiresIn
    ensures var s := FirstToken(expiresIn, cfg);
            && s.timers == map[1 := Timer(Delay(1000 * (expiresIn - 30)), 0)] && s.fetches == map[]
            && s.places == map[0 := Waiting(1)]
            && s.last == Some(Emission("t", 0, 1000 * expiresIn, 0))
  {
    assert Begin(INITIAL_AUTH, 0).fetches == map[0 := Fetch(0, 0, true)];
  }

  lemma OneTimerCase(s: AuthState, due: nat, e: Emission, now: nat)
    requires s.timers == map[1 := Timer(due, e.loop)] && s.fetches == map[] && s.places == map[e.loop := Waiting(1)]
    requires s.last == Some(e) && e.token != ""
    ensures LagBounded(s, now) <==> now - due + e.transit <= 30_000
    ensures Fresh(s, now) <==> now <= e.expiresAt
  {
    assert 1 in s.timers && s.timers[1].loop == e.loop;
  }

  /**
   * Both bounds are exact, as a first token and its first refresh show. The token is in use past its expiry exactly
   * when the lag bound is broken, provided it lives at least 31 s; with 30 s it goes stale 1 ms before the bound is
   * reached.
   */
  lemma LagBoundIsTight(expiresIn: int, cfg: Config, now: nat)
    requires 0 < expiresIn <= cfg.updateIntervalSec && 1000 * expiresIn <= MAX_DELAY_MS
    ensures expiresIn >= 31 ==>
              (Fresh(FirstToken(expiresIn, cfg), now) <==> LagBounded(FirstToken(expiresIn, cfg), now))
    ensures expiresIn == 30 && now == 30_001 ==>
              LagBounded(FirstToken(expiresIn, cfg), now) && !Fresh(FirstToken(expiresIn, cfg), now)
  {
    FirstTokenState(expiresIn, cfg);
    OneTimerCase(FirstToken(expiresIn, cfg), Delay(1000 * (expiresIn - 30)),
                 Emission("t", 0, 1000 * expiresIn, 0), now);
  }

  /** A start attempt and the refresh loop judge the same failure alike. */
  lemma SameDnsVerdict(r: Response, cfg: Config)
    requires !BringsToken(r)
    ensures UpdateError(GetOidcToken(r)).Some?
    ensures IsDnsRelated(UpdateError(GetOidcToken(r)).value) <==> IsDnsFailure(r)
    ensures UpdateTimeoutSec(GetOidcToken(r), cfg) == if IsDnsFailure(r) then cfg.retryDnsSec else cfg.retrySec
  {
  }

  // ---- The class --------------------------------------------------------------------------------------------------

  class AuthClient {
    const cfg: Config
    var timer: Option<nat>
    // Timers and requests this object has handed to the event loop.
    var timers: map<nat, Timer>
    var fetches: map<nat, Fetch>
    var next: nat
    var loops: nat
    ghost var places: map<nat, Place>
    ghost var ended: nat
    ghost var last: Option<Emission>

    ghost function Abs(): AuthState reads this {
      AuthState(timer, timers, fetches, next, loops, places, ended, last)
    }

    constructor (cfg: Config)
      ensures this.cfg == cfg && Abs() == INITIAL_AUTH
    {
      this.cfg := cfg;
      timer, timers, fetches, next, loops, places, ended, last := None, map[], map[], 0, 0, map[], 0, None;
    }

    /** `startAccessTokenUpdates` up to its `await`, called by a start attempt. */
    method StartAccessTokenUpdates(now: nat)
      modifies this
      ensures Abs() == Begin(old(Abs()), now)
    {
      fetches := fetches[next := Fetch(now, loops, true)];
      places := places[loops := Requesting(next)];
      next, loops := next + 1, loops + 1;
    }

    /** The same call made by a refresh timer. */
    method OnTimer(t: nat)
      requires t in timers
      modifies this
      ensures Abs() == TimerFires(old(Abs()), t)
    {
      var fired := timers[t];
      timers := timers - {t};
      fetches := fetches[next := Fetch(fired.due, fired.loop, false)];
      places := places[fired.loop := Requesting(next)];
      next := next + 1;
    }

    /** `startAccessTokenUpdates` after its `await`; `token` is what it emits, `error` the failure it reports. */
    method OnFetch(f: nat, r: Response, now: nat) returns (token: string, error: Option<Thrown>)
      requires f in fetches
      modifies this
      ensures Abs() == FetchDone(old(Abs()), f, r, now, cfg)
      ensures token == EmittedToken(GetOidcToken(r)) && error == UpdateError(GetOidcToken(r))
    {
      var d := GetOidcToken(r);
      var loop := fetches[f].loop;
      fetches := fetches - {f};
      token := if d.Token? then d.value else "";
      timers := timers[next := Timer(now + Delay(1000 * UpdateTimeoutSec(d, cfg)), loop)];
      timer := Some(next);
      places := places[loop := Waiting(next)];
      next := next + 1;
      last := Some(EmissionOf(d, loop, now));
      error := UpdateError(d);
    }

    method StopUpdates()
      modifies this
      ensures Abs() == Halt(old(Abs()))
    {
      if timer.Some? {
        if timer.value in timers {
          places, ended := places[timers[timer.value].loop := Ended], ended + 1;
        }
        timers := timers - {timer.value};
        timer := None;
      }
    }
  }
}
