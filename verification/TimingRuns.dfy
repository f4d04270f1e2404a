/** Legal runs in which tokens go stale and retries come late, without the assumptions that rule this out. */
module TimingRuns {
  import opened Peers
  import opened Adapter
  import opened Scenarios
  import opened Beginnings
  import Auth

  // ---- A token that goes stale ------------------------------------------------------------------------------------

  /** The first token, which lives for `expiresIn` seconds, is being refreshed since `due`. */
  function FirstRefresh(due: nat, expiresIn: nat): Auth.AuthState {
    FirstAuth(due, expiresIn).(
    timers := map[], fetches := map[2 := Auth.Fetch(due, 0, false)], places := map[0 := Auth.Requesting(2)], next := 3)
  }

  function RefreshingFirst(due: nat, expiresIn: nat): PeerState {
    Fetched(due, expiresIn, CONNECTING).(auth := FirstRefresh(due, expiresIn))
  }

  lemma FirstTimerFires(s: Auth.AuthState, due: nat, expiresIn: nat)
    requires s == FirstAuth(due, expiresIn)
    ensures 1 in s.timers && Auth.TimerFires(s, 1) == FirstRefresh(due, expiresIn)
  {
    assert s.timers - {1} == map[];
    assert s.places[0 := Auth.Requesting(2)] == FirstRefresh(due, expiresIn).places;
  }

  lemma FirstIsPrompt(due: nat, expiresIn: nat)
    requires due <= 35_000
    ensures NoneResuming(Fetched(due, expiresIn, CONNECTING))
    ensures PromptUntil(Fetched(due, expiresIn, CONNECTING), due)
  {
  }

  lemma RefreshIsPrompt(due: nat, expiresIn: nat, until: nat)
    requires until <= 35_000
    ensures NoneResuming(RefreshingFirst(due, expiresIn)) && PromptUntil(RefreshingFirst(due, expiresIn), until)
  {
  }

  lemma ReachesFirstDue(env: Environment, due: nat, expiresIn: nat)
    requires due <= 35_000 && Reaches(INITIAL_ADAPTER, env, Fetched(due, expiresIn, CONNECTING), 0)
    ensures Reaches(INITIAL_ADAPTER, env, Fetched(due, expiresIn, CONNECTING), due)
  {
    FirstIsPrompt(due, expiresIn);
    Later(INITIAL_ADAPTER, env, Fetched(due, expiresIn, CONNECTING), 0, due);
  }

  lemma ReachesFirstRefresh(env: Environment, due: nat, expiresIn: nat)
    requires Expiry(due, expiresIn) && (env.a.longTokens ==> expiresIn >= 31)
    ensures Reaches(INITIAL_ADAPTER, env, RefreshingFirst(due, expiresIn), due)
  {
    ReachesFetched(env, due, expiresIn);
    ReachesFirstDue(env, due, expiresIn);
    var p := Fetched(due, expiresIn, CONNECTING);
    FirstTimerFires(p.auth, due, expiresIn);
    Then(INITIAL_ADAPTER, env, p, due, TokenTimer(1), Quiet(RefreshingFirst(due, expiresIn)));
  }

  lemma ReachesStale(env: Environment, due: nat, expiresIn: nat, now: nat)
    requires Expiry(due, expiresIn) && (env.a.longTokens ==> expiresIn >= 31) && due <= now <= 35_000
    ensures Reaches(INITIAL_ADAPTER, env, RefreshingFirst(due, expiresIn), now)
  {
    ReachesFirstRefresh(env, due, expiresIn);
    RefreshIsPrompt(due, expiresIn, now);
    Later(INITIAL_ADAPTER, env, RefreshingFirst(due, expiresIn), due, now - due);
  }

  /** The HTTP server still holds a token that has expired, though its refresh loop was not stopped. */
  ghost predicate HoldsStaleToken(p: PeerState, now: nat) {
    && p.http.listening && p.http.accessToken != ""
    && p.auth.last.Some? && p.http.accessToken == p.auth.last.value.token
    && p.auth.last.value.expiresAt < now && !Auth.Stopped(p.auth, p.auth.last.value.loop)
  }

  const SHORT_TOKENS := ALL.(a := GOOD.(longTokens := false))

  /** A token of 30 s goes stale although its refresh stays within the lag bound. */
  lemma ShortTokenGoesStale()
    ensures exists p ::
              Reaches(INITIAL_ADAPTER, SHORT_TOKENS, p, 30_001) && Auth.LagBounded(p.auth, 30_001)
              && HoldsStaleToken(p, 30_001)
  {
    var p := RefreshingFirst(1, 30);
    ReachesStale(SHORT_TOKENS, 1, 30, 30_001);
    assert p.auth.fetches == map[2 := Auth.Fetch(1, 0, false)];
    assert Auth.LagBounded(p.auth, 30_001) && HoldsStaleToken(p, 30_001);
  }

  /** A token of 31 s goes stale when its refresh takes 1 ms longer than the lag bound allows. */
  lemma SlowRefreshGoesStale()
    ensures exists p ::
              Reaches(INITIAL_ADAPTER, ALL, p, 31_001) && Auth.LagBounded(p.auth, 31_000)
              && HoldsStaleToken(p, 31_001)
  {
    var p := RefreshingFirst(1000, 31);
    ReachesStale(ALL, 1000, 31, 31_001);
    assert p.auth.fetches == map[2 := Auth.Fetch(1000, 0, false)];
    assert Auth.LagBounded(p.auth, 31_000) && HoldsStaleToken(p, 31_001);
  }

  // ---- A retry that comes late ------------------------------------------------------------------------------------

  const LATE_TIMERS := ALL.(a := GOOD.(prompt := false))

  function RetryingFirst(): PeerState {
    FailedFirst().(agent := CleanedUp(FAILED.watch), own := RETRYING)
  }

  /** A timer that fires late stretches the gap between two attempts, here by more than two minutes. */
  lemma LateTimerStretchesGap()
    ensures exists p, t ::
              && Reaches(INITIAL_ADAPTER, LATE_TIMERS, p, 200_000)
              && CanHappen(p, RetryTimer(t), 200_000) && p.own.phase.Running?
              && 200_000 > p.own.retries[t].failedAt + 5000 + RetryDelay(p.own.retries[t].dns, DEFAULTS)
  {
    ReachesFailed(LATE_TIMERS);
    CleansUp(INITIAL_ADAPTER, LATE_TIMERS, FailedFirst());
    var p := RetryingFirst();
    Later(INITIAL_ADAPTER, LATE_TIMERS, p, 5000, 195_000);
    assert CanHappen(p, RetryTimer(0), 200_000);
  }
}
