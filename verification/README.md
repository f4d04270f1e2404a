# Inter-scheme proxy adapter: a verified model

The adapter connects two hubs, A and B. For each hub a peer server keeps an access token fresh, keeps a WebSocket to the
hub's management API open, builds HTTPS agents from the certificates it receives there, proxies requests with token and
agent, passes JWS key announcements on to the other hub, and answers pings with the other peer's credentials. None of this
is one large algorithm. It is a handful of timer and promise machines that share state, and what the adapter guarantees
depends on how they interleave.

The project models one turn of the event loop at a time. A turn starts with an event (a timer fires, a token request ends,
a socket opens, pings, closes, fails or delivers a message, `start` or `stop` is called, a settled promise resumes) and
runs to the next `await`. Events may come in any order the environment allows, timers at any time after they are due. Runs
are arbitrary sequences of such moves of both peers and of time passing; a theorem about runs holds for all of them.

| file | what it holds |
|---|---|
| Prelude.dfy | the two sides, the delay that Node.js really uses for a timer, `clearTimeout` |
| Codec.dfy, Messages.dfy, Protocol.dfy | the JSON codec with its Buffer reviver; what messages say, field by field; message builders, guards, `_handle`, the network of agents |
| AuthClient.dfy | the token refresh loop: its state functions, what they keep, and the class |
| PingService.dfy, HttpServer.dfy | credentials for pings; token, HTTPS agents and their delayed destruction; the readiness gate |
| ControlAgent.dfy | sockets, watchdog, `receive()` and `close()` promises |
| PeerServer.dfy, Adapter.dfy | the turns of a peer, the events of the environment, the two peers wired together, runs |
| Invariants.dfy, Runs.dfy | what every turn and every run keeps |
| RetryMachine.dfy, Recovery.dfy | the start procedure refines a seven-stage machine; readiness, hanging, late pings |
| Handshake.dfy, JwsLoop.dfy | the hub's answer that makes a peer ready; the JWS requests of a ready peer |
| Crashes.dfy | what ends the process, over whole runs |
| Settling.dfy, Timing.dfy, Retrying.dfy | `receive()` and `close()` end once and in time; retries follow the failure they are for, and come |
| Watchdog.dfy, Reconnecting.dfy | when the watchdog stays silent, and when `open()` runs again |
| Credentials.dfy, Traces.dfy | agents, tokens and mirrors over runs; what crosses between the peers |
| Rotation.dfy, DoubleDelivery.dfy | rotations of HTTPS agents over runs; certificates delivered twice |
| Stopping.dfy, Quiescence.dfy | `stop` completes in time; what it leaves behind |
| Scenarios.dfy, Beginnings.dfy, StopRuns.dfy, WatchdogRuns.dfy, TimingRuns.dfy, SpacedRuns.dfy | concrete legal runs: counterexamples without the assumptions, and an ordinary start |

Each class of the source is a class here, with the same fields and one method per turn; its methods are proved to change
the object exactly as the state functions say, and the theorems are about those functions.

## Assumptions about the environment

`Habits` in Adapter.dfy names the assumptions about the environment of one peer, each a condition on single moves; an
`Environment` has them for each of the two peers. A theorem about a peer asks only for those it needs, and only of that
peer. Where one is needed, a lemma shows that a legal run with the default configuration breaks the claim without it, while
the other assumptions hold. A theorem about a continuation leaves the run before it unrestricted.

- `prompt`: the peer's timers fire in the millisecond they are due (without it: `LateTimerStretchesGap`).
- `noLatePing`: the peer gets no ping between `close()` and the next `open()` (without it: `LatePingRejectsRetry`,
  `LatePingOutlivesStop`).
- `longTokens`: every token lives for at least 31 s (without it: `ShortTokenGoesStale`).
- `spacedCerts`: announced certificates come while no agent awaits its destruction, as they do more than 5 s after the last
  rotation with no shutdown timer overdue (without it: `LateCertsOutliveStop`).
- `Auth.LagBounded` is a condition on a state: the last token's transit time plus the lag of its refresh is at most 30 s
  (without it: `SlowRefreshGoesStale`).
- `Quiescence.MayStop` is a condition on the state in which `stop` is called. Each part of it is needed: no token request
  (`StopMissesFetch`), no `loadCerts` (`StopMissesAttempt`), no clean-up (`StopMissesCleanUp`) and no superseded connection
  (`StopMissesSocket`) in flight, one refresh loop (`TwoLoops`), and more than 5 s since the last rotation,
  with no shutdown timer overdue (`OverlapOutlivesStop`).
- `Watchdog.Undisturbed` is a condition on a run: no ping or close event re-arms the watchdog (without it:
  `SupersededKeepsQuiet`).

## Where the code does not do what one would expect

- A start attempt awaits the `open` event of its own socket. If that socket fails first, the attempt never ends: no retry
  is scheduled and the peer never becomes ready, although the watchdog reopens the connection (`FailedConnectHangs`).
  Exactly the attempts whose socket has not failed can still go on (`AttemptCanGoOn`).
- The log line of the watchdog announces a restart on a possibly broken connection. When the socket is still open,
  `open()` is rejected inside the timer callback and the process ends instead (`CrashesExactly`).
- A lost socket is not always replaced within 30 s plus the timeout: pings of a superseded socket keep the watchdog quiet
  (`SupersededKeepsQuiet`). It is replaced if nothing re-arms the watchdog (`WatchdogReopens`), and whatever happens once
  all sockets of the peer are closed (`ClosedSocketsReopen`, `ReadyPeerReconnects`).
- The JSON text `null` ends the process. So does a text that is not JSON on a socket on which `receive()` was called since
  the last message that could be parsed, even after that `receive()` timed out and the attempt failed: the timer leaves the
  message listener attached, and its parser is not guarded (`CrashesExactly`, `StaleListenerCrashes`).
- One peer can come to run two refresh loops, of which `stop` ends one (`TwoLoops`).
- After a complete `stop` a hub that has not closed its socket yet can still change the certificates in the other peer's
  ping service, or end the process (`LateMessage`).
- Certificates that arrive between a certificate message and the resumption of `loadCerts` are overwritten by the older
  message (`SecondDelivery`).
- A `loadCerts` that reloads certificates rotates twice in one millisecond, after which `stop` cannot reach the first
  destruction (`DoubleRotation`).

## Model

| member | source | states |
|---|---|---|
| `Codec.RoundTripExact` | src/infra/controlAgent/mcm.ts:12-29 | A value survives `serialise` then `deserialise` if and only if no object at any depth has `type` "Buffer" and an array `data`, for every value tree with Buffer leaves and every byte coercion that keeps bytes |
| `Codec.RevivedIsCollisionFree` | src/infra/controlAgent/mcm.ts:14-29 | The bottom-up reviver leaves no object behind that it would take for a Buffer, whatever the text |
| `Codec.NormalForm` | src/infra/controlAgent/mcm.ts:12-29 | Encoding and decoding a decoded text again changes nothing, for every text |
| `Codec.RevivesBuffer` | src/infra/controlAgent/mcm.ts:14-29 | An encoded Buffer with any further keys is revived as a Buffer, element by element, elements that are Buffers themselves first |
| `Protocol.EnvelopeArrives` | src/infra/controlAgent/mcm.ts:31-42 | A built message arrives as an object with its verb and message kind, its data as the codec delivers it, and its id or slug; the envelope itself is never taken for a Buffer |
| `Protocol.BuildersSay` | src/infra/controlAgent/mcm.ts:55-72 | What each message of the build API says at the receiver, in the words of the protocol |
| `Protocol.BuiltIsWsPayload` | src/infra/controlAgent/types.ts:127-136 | A built message passes the payload guard at the receiver if and only if its data was defined |
| `Protocol.PayloadExactly` | src/infra/controlAgent/types.ts:127-136 | The payload guard accepts exactly the objects with a verb and a kind of the protocol, and with data |
| `Protocol.CertsPayloadExactly` | src/infra/controlAgent/types.ts:138-144 | The certificates guard accepts exactly the configuration announcements with truthy credentials under `outbound`, `tls`, `creds`, and `extractCerts` returns these |
| `Protocol.CertsExactly` | src/infra/controlAgent/ControlAgent.ts:246-261 | `_handle` calls `onCert` exactly for a configuration announcement with truthy credentials at `data.outbound.tls.creds`, and with these; without them, and for a PATCH, it does nothing |
| `Protocol.JwsExactly` | src/infra/controlAgent/ControlAgent.ts:262-267 | `_handle` calls `onPeerJWS` exactly for a JWS announcement, with its data, whatever it is |
| `Protocol.RepliesExactly` | src/infra/controlAgent/ControlAgent.ts:236-280 | `_handle` answers exactly the texts that are not JSON and the messages that are not supported, with the error for each and the id of the message |
| `Protocol.ConfigurationNotifyExactly` | src/infra/controlAgent/mcm.ts:59 | Any configuration, built and sent, leads to `onCert` with the truthy credentials it has on the wire, and to nothing without |
| `Protocol.ConfigurationNotifyDelivers` | src/infra/controlAgent/mcm.ts:59 | If the reviver takes nothing in the configuration for a Buffer, these are the credentials of the sender |
| `Protocol.JwsNotifyDelivers` | src/infra/controlAgent/mcm.ts:61-64 | Any JWS keys, built and sent, are announced as they are on the wire |
| `Protocol.ForwardedJwsArrives` | src/infra/controlAgent/ControlAgent.ts:213-215 | The keys of a decoded announcement, built and sent on, are announced unchanged at the other hub, whatever text they came from |
| `Protocol.ReplyQuotesMessage` | src/infra/controlAgent/mcm.ts:65-71 | An error reply names the error and quotes the id of the message it answers, unchanged |
| `Protocol.ThrowsExactlyOnNull` | src/infra/controlAgent/ControlAgent.ts:236-246 | `_handle` throws on the JSON text `null` and on nothing else |
| `Protocol.ErrorsAreNotAnswered` | src/infra/controlAgent/ControlAgent.ts:273-275 | A built ERROR message gets no reply, whatever id it quotes |
| `Protocol.NoReplyStorm` | src/infra/controlAgent/ControlAgent.ts:236-280 | In any network of agents running `_handle`, from any packets in flight, at most twice as many deliveries can happen as there are packets |
| `Auth.StopUpdatesEnds` | src/infra/AuthClient.ts:52-58 | `stopUpdates` ends one refresh loop exactly when its stored timer is still pending, never touches a request in flight, and keeps every loop accounted for |
| `Auth.OnePlacePerLoop` | src/infra/AuthClient.ts:30-50 | A refresh loop has never two timers, two requests, or one of each; until it is ended it has one |
| `Auth.StopLeavesNone` | src/infra/AuthClient.ts:52-58 | `stopUpdates` leaves no refresh timer exactly when the stored timer was the only one |
| `Auth.FreshWhileLagBounded` | src/infra/AuthClient.ts:30-50 | While the last token's transit time and the lag of its refresh stay within 30 s, the last emitted token is empty, unexpired, or from a stopped loop |
| `Auth.LagBoundIsTight` | src/infra/AuthClient.ts:44 | For a first token that lives at least 31 s, fresh and within the bound are the same; one of 30 s goes stale within the bound |
| `TimingRuns.ShortTokenGoesStale` | src/infra/AuthClient.ts:44 | A legal run in which a token of 30 s goes stale within the lag bound |
| `TimingRuns.SlowRefreshGoesStale` | src/infra/AuthClient.ts:30-50 | A legal run in which a token of 31 s goes stale 1 ms after the lag bound is broken |
| `Auth.SameDnsVerdict` | src/infra/AuthClient.ts:36-40 | The refresh loop picks the DNS retry interval exactly when the name could not be resolved, as does the error it reports to a start attempt |
| `Auth.ResponseExactly` | src/infra/AuthClient.ts:30-50 | Exactly which responses bring a token, what they make the loop emit, and when it goes on: 30 s before the update interval or the life of the token ends, whichever is sooner, or after the retry interval |
| `Http.OnServerStateKeeps` | src/infra/httpServer/HttpServer.ts:151-162 | Every credential update keeps the agents conserved, destroyed in order, and the stored handle the newest |
| `Http.ShutdownFiresKeeps` | src/infra/httpServer/HttpServer.ts:178-182 | So does every shutdown timer, though it forgets whichever handle is stored |
| `Http.StoppedKeeps` | src/infra/httpServer/HttpServer.ts:48-54 | So does `stop`, which cancels at most one destruction |
| `Http.ForwardsExactly` | src/domain/ProxyService.ts:19-37 | A request is forwarded exactly with a token and after certificates have come, to the peer endpoint with the newest agent |
| `Http.StopLeavesNone` | src/infra/httpServer/HttpServer.ts:51 | `stop` leaves no destruction pending exactly when the stored handle names the only one |
| `Http.SettledIsStoppable` | src/infra/httpServer/HttpServer.ts:169-184 | More than 5 s after the last rotation, with no shutdown timer overdue, no destruction is pending |
| `Http.RotationStaysStoppable` | src/infra/httpServer/HttpServer.ts:169-184 | A rotation leaves every pending destruction within the reach of `stop` exactly when no agent awaits its destruction at that moment |
| `Http.DoubleRotation` | src/infra/httpServer/HttpServer.ts:178-182 | Two rotations in one millisecond leave a destruction that `stop` cannot reach exactly when there was an agent before them |
| `Rotation.SpacedRunsStayStoppable` | src/infra/httpServer/HttpServer.ts:169-184 | `stop` can reach every pending destruction in all states of a run exactly when, at every rotation in it, no agent awaits its destruction |
| `SpacedRuns.ReadyRunIsSpaced` | src/infra/controlAgent/ControlAgent.ts:187-201 | A legal run to a ready peer, whose certificates are delivered twice, is such a run |
| `Rotation.AgentPerUpdate` | src/infra/httpServer/HttpServer.ts:159-173 | Over every run, until the server is stopped, one agent is built for each update with certificates that the peer emits |
| `Credentials.NoAgentDiesInUse` | src/domain/ProxyService.ts:19-37 | After every run a request is forwarded exactly when token and certificates are there, with the current non-empty token and the newest agent, which is alive and not destroyed for another 5 s in any continuation |
| `Credentials.ServerTokenIsFresh` | src/infra/AuthClient.ts:30-50 | After every run whose tokens live at least 31 s, within the lag bound, the token held by the HTTP server is empty, unexpired, or from a stopped loop |
| `Credentials.PingAnswersAsProxy` | src/domain/InboundPingService.ts:89-114 | After every run, until X's HTTP server is stopped: the other peer answers a ping exactly when it has a source and X an agent whose certificates have a `cert`, at the hub of X, back to the source, with the certificates of the newest agent; a proxied request then goes to the same hub with the same token |
| `Credentials.LastTokenTurn` | src/infra/AuthClient.ts:36-45 | The emitted token changes only when a token request ends; it is then the token of the response, or "", and is sent to the HTTP server and to the other peer in the same turn |
| `Credentials.RefreshScheduled` | src/infra/AuthClient.ts:42-47 | A token request that ends schedules the next refresh of its loop when the response calls for, unless it makes a start attempt fail |
| `Credentials.StoppedStays` | src/infra/httpServer/HttpServer.ts:48-54 | Once the HTTP server is stopped its token and its agent never change, over every run |
| `Credentials.NothingIsLost` | src/infra/httpServer/HttpServer.ts:169-184 | After every run all refresh loops and all HTTPS agents ever created are accounted for, as disjoint cases |
| `Traces.PingHoldsLast` | src/domain/InboundPingService.ts:89-96 | Over every run a ping service holds the last non-empty token and the last certificates the other peer emitted |
| `Traces.JwsTrace` | src/domain/InterSchemeProxyAdapter.ts:34-42 | Over every run the JWS announcements written to one hub carry exactly the data of the PEER_JWS NOTIFY messages the other peer received while the first was ready with an open socket, in order, each once, and never its own |
| `Traces.AsksForCertificates` | src/infra/controlAgent/ControlAgent.ts:187-189 | A socket that opens for a waiting caller makes the peer write one message, which the hub reads as a CONFIGURATION READ |
| `Traces.AsksForJws` | src/domain/PeerServer.ts:133-138 | The interval makes the peer write one message, which the hub reads as a PEER_JWS READ |
| `Traces.AnswersMessage` | src/infra/controlAgent/ControlAgent.ts:236-280 | Exactly the messages that call for it are answered on the open socket, with an ERROR that names what is wrong and quotes the id |
| `Traces.OwnTurnWrites` | src/infra/controlAgent/ControlAgent.ts:187-189 | All that a peer's own turns write to its hub: the certificate request of a fresh socket, error replies, and the periodic JWS request |
| `Invariants.HttpTurn` | src/domain/PeerServer.ts:144-147 | In every turn the credential state changes by exactly the update that is also sent to the other peer, by a shutdown timer, or by the end of `stop` |
| `Invariants.AuthKept` | src/infra/AuthClient.ts:30-58 | Every turn keeps the refresh loops conserved, and with long-lived tokens the next refresh 30 s ahead of the expiry |
| `RetryMachine.OneStage` | src/domain/PeerServer.ts:67-108 | The control of `startPm4mlPart` is never in two places |
| `RetryMachine.AgentStage` | src/domain/PeerServer.ts:119-129 | Every turn moves the control held by sockets, `receive()` and `close()` promises along the simple machine |
| `Recovery.AlwaysInOneStage` | src/domain/PeerServer.ts:67-108 | After every run a peer that is not stopped is in exactly one of: idle, token request, opening, loading, cleaning up, retry timer pending, ready |
| `Recovery.StepRefines` | src/domain/PeerServer.ts:67-108 | Every move follows an edge of the simple seven-stage machine; `isReady` is true in the stage Ready only |
| `Recovery.ReadyIsAbsorbing` | src/domain/PeerServer.ts:81 | Once ready, a peer stays ready in every continuation without `stop`, whatever its socket, watchdog and hub do |
| `Recovery.ReadyExactly` | src/domain/PeerServer.ts:81 | Exactly which turns change readiness |
| `Handshake.AnsweringHubMakesReady` | src/domain/PeerServer.ts:119-131 | After every run: an attempt whose socket connects asks for the configuration once it opens, and any answer with credentials makes the peer ready and both peers use exactly these |
| `JwsLoop.OneJwsInterval` | src/domain/PeerServer.ts:133-142 | After every run a ready peer has exactly one JWS interval, the stored one |
| `JwsLoop.JwsGoesOn` | src/domain/PeerServer.ts:133-138 | After every run: with prompt timers, any continuation of a ready peer without `stop` that is longer than the interval contains a firing of it |
| `JwsLoop.JwsNotSooner` | src/domain/PeerServer.ts:133-138 | After every run: from becoming ready and from each firing, the next one cannot come before a whole interval has passed |
| `Recovery.FailureHangs` | src/infra/controlAgent/ControlAgent.ts:88-112 | Every error or close of the attempt's own socket before it opens leaves the attempt hung |
| `Recovery.FailedConnectHangs` | src/infra/controlAgent/ControlAgent.ts:72-115 | After every run: an attempt whose socket failed before it opened never ends. In no continuation, whatever the watchdog reopens and even across `stop`, does the peer become ready or schedule a retry |
| `Recovery.AttemptCanGoOn` | src/infra/controlAgent/ControlAgent.ts:88-112 | After every run: an attempt that awaits its socket goes on in some continuation if and only if that socket has not failed |
| `Recovery.NeverAlreadyOpen` | src/infra/controlAgent/ControlAgent.ts:83-86 | With no ping between `close()` and the next `open()`, no start attempt is rejected because the socket is already open |
| `Recovery.LatePingReopens` | src/infra/controlAgent/ControlAgent.ts:95-98 | For every timeout: one late ping after the `close()` of a failed attempt re-arms the watchdog, which opens another socket |
| `WatchdogRuns.LatePingRejectsRetry` | src/infra/controlAgent/ControlAgent.ts:83-86 | A legal run in which one late ping makes the retry 60 s later fail because the socket is already open |
| `Crashes.CrashesExactly` | src/infra/controlAgent/ControlAgent.ts:75-79 | After every run, exactly which events end the process; for a text that is not JSON, exactly when `receive()` was called on its socket since the last parsed message |
| `Crashes.RunListens` | src/infra/controlAgent/ControlAgent.ts:162-185 | Over every run, which sockets still have a `once` listener: set by `receive()`, taken by the next parsed message, kept by the timer |
| `WatchdogRuns.StaleListenerCrashes` | src/infra/controlAgent/ControlAgent.ts:166-171 | A legal run in which `receive()` times out, the attempt fails, and a text that is not JSON then ends the process |
| `Recovery.UndisturbedStart` | src/domain/PeerServer.ts:67-82 | A token, an open socket and a certificate message make a fresh peer ready and let it forward with both |
| `Settling.ReceiveEndsOnce` | src/infra/controlAgent/ControlAgent.ts:162-185 | After every run: the code awaiting a `receive()` resumes at most once in any continuation, once exactly when the promise is gone, and with prompt timers always within the receive timeout |
| `Settling.CloseEndsOnce` | src/infra/controlAgent/ControlAgent.ts:118-146 | The same for `close()`, within 5 s |
| `Settling.ReceiveSettles` | src/infra/controlAgent/ControlAgent.ts:170-183 | Exactly which events settle a `receive()` and how: a message on its own socket, by the payload guard, or its timer |
| `Settling.CloseSettles` | src/infra/controlAgent/ControlAgent.ts:125-139 | Exactly which events settle a `close()`: close or error of its own socket, or its timer |
| `Settling.OutcomeStands` | src/infra/controlAgent/ControlAgent.ts:162-185 | The first such event wins: no later one changes the outcome |
| `Timing.RetryGap` | src/domain/PeerServer.ts:99-108 | With prompt timers no attempt begins outside the retry delay and that delay plus 5 s after the failure it follows |
| `Retrying.RetryHappens` | src/domain/PeerServer.ts:99-108 | After every run: when an attempt fails, the next one begins in any continuation with prompt timers and without `stop` that is longer than 5 s plus the retry delay, the DNS delay for DNS failures |
| `TimingRuns.LateTimerStretchesGap` | src/domain/PeerServer.ts:106 | A legal run without prompt timers in which the gap is more than two minutes longer |
| `Timing.FailedTokenFetch` | src/domain/PeerServer.ts:110-117 | A start attempt whose token request fails retries as DNS exactly when the refresh loop does, and the loop is ended in the same turn |
| `Timing.RetryFollowsFailure` | src/domain/PeerServer.ts:74-78 | After every run of a peer that is not stopped, a pending retry counts from the attempt that failed last, and takes the DNS delay exactly when that failure was DNS-related |
| `Invariants.ClosesTurn` | src/domain/PeerServer.ts:72-97 | A turn calls `close()` exactly when a start attempt fails in it, with the verdict on its error, or when `stop` begins |
| `Control.ErrorClosesCurrent` | src/infra/controlAgent/ControlAgent.ts:109-112 | An error on any socket closes that socket and the current one, and no other |
| `Watchdog.PingsHoldWatchdogOff` | src/infra/controlAgent/ControlAgent.ts:95-107 | In every continuation of every run: while a ping, a close event before the first `close()`, or `open()` comes in every 30 s plus the timeout, the watchdog never fires |
| `Watchdog.WatchdogReopens` | src/infra/controlAgent/ControlAgent.ts:73-81 | After every run: with prompt timers, in any continuation longer than 30 s plus the timeout in which the watchdog stays armed and nothing re-arms it, `open()` runs again, and a lost socket is replaced, whatever `shouldReconnect` is |
| `Reconnecting.ClosedSocketsReopen` | src/infra/controlAgent/ControlAgent.ts:73-107 | After every run: once all sockets of an armed agent are closed, `open()` makes a new one in any continuation longer than 30 s plus the timeout in which the agent stays armed, with prompt timers, whatever events come |
| `Reconnecting.ReadyPeerReconnects` | src/infra/controlAgent/ControlAgent.ts:73-107 | After every run: a ready peer all of whose sockets are closed opens a new one in any continuation without `stop` that is longer than 30 s plus the timeout, with prompt timers |
| `Watchdog.OneWatchdog` | src/infra/controlAgent/ControlAgent.ts:73-76 | After every run at most one watchdog timer is pending, exactly one between `open()` and `close()`; with prompt timers it is never overdue |
| `WatchdogRuns.SupersededKeepsQuiet` | src/infra/controlAgent/ControlAgent.ts:95-98 | A legal run in which a lost socket is not replaced for 40 s, with a watchdog of 35 s, because a superseded socket pings |
| `Stopping.StopComes` | src/domain/PeerServer.ts:42-47 | After every run: with prompt timers, more than 5 s after `stop` was called the control agent is closed, whatever was in flight |
| `Quiescence.QuiescentAfterStop` | src/domain/PeerServer.ts:42-51 | After every run, whatever happened in it: a peer stopped at a quiet point with one refresh loop and more than 5 s after its last rotation has, once `stop` completed, no timer, request or promise, and nothing happens to it but events of sockets its hub has not closed |
| `Quiescence.LateMessage` | src/domain/PeerServer.ts:44 | A message to such a peer ends the process on the same conditions as ever, and otherwise changes nothing but its listener; it emits exactly when it announces certificates or JWS keys, and reaches the other peer only with certificates |
| `StopRuns.StopMissesAttempt` | src/domain/PeerServer.ts:72-81 | A legal run from a state that meets all other conditions: certificates that come while `stop` closes the socket make the attempt succeed, and its JWS loop outlives `stop` |
| `StopRuns.StopMissesCleanUp` | src/domain/PeerServer.ts:99-108 | A legal run from a state that meets all other conditions: a clean-up under way when `stop` is called schedules a retry that outlives it |
| `StopRuns.StopMissesFetch` | src/infra/AuthClient.ts:47 | A legal run from a state that meets all other conditions: a token request in flight when `stop` is called schedules a refresh that outlives it |
| `StopRuns.StopMissesSocket` | src/infra/controlAgent/ControlAgent.ts:88-93 | A legal run from a state that meets all other conditions: a superseded socket that opens after `stop` began fails its attempt, whose retry outlives `stop` |
| `StopRuns.TwoLoops` | src/infra/AuthClient.ts:30-58 | A legal run to a peer at rest with two refresh loops, of which one outlives `stop` |
| `StopRuns.OverlapOutlivesStop` | src/infra/httpServer/HttpServer.ts:178-182 | A legal run to a peer at rest with overlapping rotations, of which one destruction outlives `stop` |
| `StopRuns.LatePingOutlivesStop` | src/infra/controlAgent/ControlAgent.ts:95-98 | A legal run: a ping on the closing socket re-arms a watchdog that outlives `stop` |
| `StopRuns.LateCertsOutliveStop` | src/infra/httpServer/HttpServer.ts:169-184 | A legal run: certificates sent twice on the closing socket leave a destruction that outlives `stop` |
| `DoubleDelivery.MessageDelivers` | src/infra/controlAgent/ControlAgent.ts:246-256 | A certificate message is installed in both peers on arrival, retiring one agent, and kept by the waiting `loadCerts` |
| `DoubleDelivery.TurnKeepsHeld` | src/infra/controlAgent/ControlAgent.ts:162-185 | A `receive()` that got its message keeps it until `loadCerts` resumes, whatever else arrives |
| `DoubleDelivery.SecondDelivery` | src/infra/controlAgent/ControlAgent.ts:187-201 | From any reachable state before a message that answers `loadCerts`, up to its resumption: the resumption leaves the certificates of both peers unchanged exactly when the last ones emitted since are still the message's own, and the message costs two agents instead of one |
| `DoubleDelivery.HarmlessIfAlone` | src/infra/controlAgent/ControlAgent.ts:187-201 | When the peer emits no other certificates in between, both peers end with what the first delivery gave them, and exactly one extra agent is built |
| `Runs.RunKeepsInv` | src/domain/PeerServer.ts:21-51 | The joint invariant of both peers holds after every run from a state where it holds |
| `Auth.AuthClient.StartAccessTokenUpdates` | src/infra/AuthClient.ts:30-33 | Puts one more request in flight, as the start of a new loop |
| `Auth.AuthClient.OnTimer` | src/infra/AuthClient.ts:47 | The refresh timer turns into a request of the same loop |
| `Auth.AuthClient.OnFetch` | src/infra/AuthClient.ts:33-50 | The settled request becomes the pending refresh timer of its loop; tells the emitted token and the reported error |
| `Auth.AuthClient.StopUpdates` | src/infra/AuthClient.ts:52-58 | Clears the stored timer and nothing else |
| `Ping.InboundPingService.UpdateAuthDetails` | src/domain/InboundPingService.ts:89-96 | Keeps old certificates and tokens when the update has none or empty ones |
| `Http.HttpServer.ReCreateHttpsAgent` | src/infra/httpServer/HttpServer.ts:169-184 | Builds the next agent and sets the shutdown timer of the old one, overwriting the handle |
| `Http.HttpServer.EmitServerState` | src/infra/httpServer/HttpServer.ts:151-162 | Stores the token, even an empty one, and rotates on truthy certificates, unless the listener is gone |
| `Http.HttpServer.OnShutdownTimer` | src/infra/httpServer/HttpServer.ts:178-182 | Destroys the agent and forgets the handle |
| `Http.HttpServer.FinishStop` | src/infra/httpServer/HttpServer.ts:48-54 | Detaches the listener and clears the stored timer only |
| `Control.ControlAgent.OnPing` | src/infra/controlAgent/ControlAgent.ts:73-81 | Replaces the stored watchdog timer |
| `Control.ControlAgent.Open` | src/infra/controlAgent/ControlAgent.ts:65-115 | Re-arms the watchdog, then either is rejected or makes a new current socket that its caller awaits |
| `Control.ControlAgent.BeginClose` | src/infra/controlAgent/ControlAgent.ts:118-142 | Disarms the watchdog, stops reconnecting, starts the 5 s timer and closes the current socket |
| `Control.ControlAgent.FinishClose` | src/infra/controlAgent/ControlAgent.ts:144 | Forgets the current socket |
| `Control.ControlAgent.Send` | src/infra/controlAgent/ControlAgent.ts:148-159 | Writes to an open socket and to no other |
| `Control.ControlAgent.BeginLoadCerts` | src/infra/controlAgent/ControlAgent.ts:187-189 | Asks for the configuration and awaits one message, or is rejected when the socket is not open |
| `Control.ControlAgent.OnOpen` | src/infra/controlAgent/ControlAgent.ts:90-93 | Tells whose `open()` promise the socket resolves, once |
| `Control.ControlAgent.OnClose` | src/infra/controlAgent/ControlAgent.ts:101-107 | Re-arms the watchdog only while reconnecting, and settles the `close()` promises of that socket |
| `Control.ControlAgent.OnError` | src/infra/controlAgent/ControlAgent.ts:109-112 | Closes the current socket, not the failed one, and settles the `close()` promises of the failed one |
| `Control.ControlAgent.OnMessageOnce` | src/infra/controlAgent/ControlAgent.ts:170-183 | Settles every `receive()` on that socket, by whether the message is a payload |
| `Control.ControlAgent.OnReceiveTimer` | src/infra/controlAgent/ControlAgent.ts:166-168 | Rejects the pending `receive()` |
| `Control.ControlAgent.OnCloseTimer` | src/infra/controlAgent/ControlAgent.ts:125-128 | Settles the pending `close()` |
| `Control.ControlAgent.OnPingTimer` | src/infra/controlAgent/ControlAgent.ts:75-77 | Reopens, or is rejected when the current socket is open |
| `Peers.PeerServer.Start` | src/domain/PeerServer.ts:35-36 | Begins the first start attempt |
| `Peers.PeerServer.Stop` | src/domain/PeerServer.ts:42-45 | Clears the retry timer, detaches the JWS listeners and begins to stop the refresh, the JWS loop and the control agent |
| `Peers.PeerServer.FinishStop` | src/domain/PeerServer.ts:46-47 | Ends the HTTP server and the readiness |
| `Peers.PeerServer.OnTokenFetch` | src/domain/PeerServer.ts:110-122 | Emits the token to both listeners; an awaiting attempt goes on to open the control agent or begins to clean up |
| `Peers.PeerServer.OnSocketOpen` | src/domain/PeerServer.ts:122-126 | The awaiting caller goes on to load certificates; failing that the attempt cleans up, the watchdog ends the process |
| `Peers.PeerServer.OnMessage` | src/infra/controlAgent/ControlAgent.ts:236-280 | Dispatches the message to credentials, JWS event or error reply, then to the waiting promises |
| `Peers.PeerServer.FinishAttempt` | src/domain/PeerServer.ts:74-81 | Starts the JWS loop and makes the peer ready |
| `Peers.PeerServer.OnReceived` | src/domain/PeerServer.ts:126-138 | Installs certificates and, for an attempt, starts the JWS loop and becomes ready; otherwise fails |
| `Peers.PeerServer.OnClosed` | src/domain/PeerServer.ts:96-108 | Loses readiness and either schedules the retry or goes on to stop the HTTP server |
| `Peers.PeerServer.OnRetryTimer` | src/domain/PeerServer.ts:106 | Begins the next attempt |
| `Peers.PeerServer.OnJwsTimer` | src/domain/PeerServer.ts:133-138 | Asks for the JWS keys and waits for the next interval |
| `Peers.PeerServer.PropagatePeerJWSEvent` | src/domain/PeerServer.ts:53-61 | Sends the announcement if ready, and tells so |
| `Peers.PeerServer.UpdatePingAuthDetails` | src/domain/PeerServer.ts:63-65 | Updates the ping service and nothing else |
| `Peers.PeerServer.Take` | src/domain/PeerServer.ts:21-156 | Every event changes the peer as the function of the turn says |
| `Adapter.InterSchemeProxyAdapter.constructor` | src/domain/InterSchemeProxyAdapter.ts:5-7 | Builds two peers that share no object |
| `Adapter.InterSchemeProxyAdapter.OnEmit` | src/domain/InterSchemeProxyAdapter.ts:31-53 | Hands an emitted event to the other peer and leaves the emitter alone |
| `Adapter.InterSchemeProxyAdapter.Take` | src/domain/InterSchemeProxyAdapter.ts:31-53 | A turn of one peer and its listeners is one step of the run model |
| `Adapter.InterSchemeProxyAdapter.Start` | src/domain/InterSchemeProxyAdapter.ts:9-16 | Both peers begin their first attempt in one turn |
| `Adapter.InterSchemeProxyAdapter.Stop` | src/domain/InterSchemeProxyAdapter.ts:18-25 | Both peers begin to stop in one turn |
| `Adapter.StepLocal` | src/domain/InterSchemeProxyAdapter.ts:31-53 | Another peer's turn can only write to this peer's socket and update its ping service |

## Left out

- Real I/O: Hapi routing and responses, axios and its retries, TLS and actual sockets are represented by the events they lead to. A socket event may come whenever its ready state allows it.
- `httpServer.start` and the listening socket: requests are considered in every state, also before the server would listen.
- The configuration with pm4ml disabled, in which none of the machines runs.
- HTTP error mapping, error bodies, header building and the clean-up of incoming headers: one endpoint, one token and one agent stand for a forwarded request. `@mojaloop/sdk-standard-components` is not part of this model.
- `buildPatchConfiguration`, whose patches come from `fast-json-patch` and which nothing calls at run time.
- JSON on characters, circular values, key order, NaN, infinities and negative zero: the codec works on trees, with `JSON.parse` and `stringify` taken as inverse to each other. How a Buffer coerces an array element that is not a byte is left open; the theorems hold for every coercion that keeps bytes.
- The text of error codes: an axios error has code EAI_AGAIN, ENOTFOUND or another.
- A fractional or infinite `expires_in`: token lives are whole numbers of seconds, also zero and negative ones.
- Random slugs: a frame without an id stands for one with any slug.
- `_callbackFns` is not a field of the model: messages come from sockets that `open()` made, and `init` sets the callbacks before it calls `open()`.
- Timer handles are numbered within their component, and a shutdown timer is named by the agent it destroys.
- Promise continuations run before time passes but may be preceded by any further event of the same moment, which allows more orders than Node.js does; between two frames of one network chunk this freedom is real.
- The state of a process that has crashed: no further move exists.
