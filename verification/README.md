# Verification of the trading lab's hard core

A Dafny model of the parts of the desktop trading lab in which a small slip would be expensive, and
proofs of what they promise. Each module follows one component:

- `CommandLine`: the portable launcher's command line quoting, against a parser written from the
  Microsoft C runtime's rules.
- `SlidingWindow`, `MessageBudget`, `LoginSafety`, `LoginReports`: the IQ Option connection limits, over
  every run of requests, failures, failed saves and restarts.
- `TraderNotifications`, `TraderInflight`, `SignalMemory`, `PerformanceGate`, `PerformanceVerdict`: the
  Deriv auto trader, as interleavings of its thread with notifiers, commits and callbacks.
- `TickHistory`: the paged backward walk through tick history, against one query.
- `IdentityService`, `IdentityProofs`, `AuthAgent`, `ReplyCache`, `KeyRegistry`: refresh-token
  rotation and proofs of possession, the agent that must stay in step with them, the server's reply
  cache and its verification keys.
- `ShadowSession`, `SessionAccounts`, `SoakRunner`, `SoakReadings`, `SoakSystem`, `TemporalSoak`: the
  shared read-only session, the soaks over any session and over this one.
- `HealthGate`, `Coordinator`, `AccountSerializer`: the gate for new orders, the outbox dispatch behind
  it and the lock each account's submissions take.

Objects whose methods update fields are classes with those fields; each method's `ensures` equates
the new state and the reply with a step function, and the theorems are about every run of steps.
The environment (clock, database, broker, worker, probes, generated ids) enters as parameters of the
steps. `dafny verify dfyconfig.toml` checks the whole project.

## What the proofs found

Where the code does not keep a promise as it is worded, a lemma exhibits a run and another states
exactly when the promise holds.

- In-flight cache: good for every evaluation of every run if and only if submissions never raise
  after writing and no other thread reloads the cache (`TraderInflight.ExactlyWhenSafe`). The lifecycle
  service hands the reload to the reconciliation. What then keeps the account at one order is the
  database's unique index (`TraderInflight.IndexKeepsOneOrder`).
- Re-arm: a round past its filter can overtake a re-arm, and a second re-arm can forget the first
  (`SignalMemory.RearmCanBeOvertakenOrForgotten`); nothing else gets past it
  (`SignalMemory.RearmHoldsExactly`).
- Probe budget: an order whose submission raises after writing uses no probe
  (`PerformanceGate.TenOrdersBetweenGrants`), and there is no bound on how many do
  (`PerformanceGate.EscapesAreUnbounded`).
- Tick history: ticks that share an epoch across a page boundary are lost
  (`TickHistory.PagedIsOneQuery`).
- Retry hint: it is rounded up, so three requests in the last fraction of a second may take the window
  first, and only three can (`LoginSafety.RetryAfterIsTruthful`).
- Soak: the lag maximum over no series raises. The shipped session lists no series once shut down, so
  a cycle that fails the runner raises instead of returning the failed snapshot that
  tests/unit/test_broker_shadow_soak.py:239 expects of a session that keeps its series (`SoakRunner.FailureReturnsExactlyWithSeries`,
  `SoakSystem.NoCycleReturnsItsFailure`). The model follows the code.
- Session: a shutdown that raises leaves a running session running without runtimes
  (`ShadowSession.RunningHasSeriesExactly`).
- Dispatch: when recording an uncertain result is refused, the gate stays open
  (`Coordinator.UncertainClosesExactly`).

## Model

| member | source | states |
|---|---|---|
| `CommandLine.JoinArguments` | build_scripts/PortableLauncher.cs:141-153 | the text built in the loop, read back by the Microsoft parser under each of its three readings of doubled quotation marks, is exactly the argument list |
| `CommandLine.QuoteArgument` | build_scripts/PortableLauncher.cs:155-187 | the buffer filled character by character, with its backslash counter, is the quoted form the round trip is proved for |
| `CommandLine.ScanNeedsNoQuotes` | build_scripts/PortableLauncher.cs:157-160 | the scan answers true exactly for a non-empty argument without space, tab or quotation mark |
| `CommandLine.RoundTrip` | build_scripts/PortableLauncher.cs:141-187 | for every list of strings (empty ones, backslash runs, quotes, blanks) parsing the joined text gives the list back |
| `CommandLine.QuotedToken` | build_scripts/PortableLauncher.cs:155-187 | one quoted argument followed by anything that ends an argument is read as that argument, leaving the rest |
| `CommandLine.JoinedIsInjective` | build_scripts/PortableLauncher.cs:141-187 | two different argument lists never print alike |
| `CommandLine.BareExactlyWhenItSurvives` | build_scripts/PortableLauncher.cs:155-160 | an argument is left without quotes if and only if its bare text parses to itself alone: never quoted needlessly, never bare wrongly |
| `MessageBudget.ResolvedPressure` | apps/core/iqoption_connection_safety.py:250-264 | the default threshold is the ceiling of four fifths of the limit and lies in 1..limit; the constructor raises exactly for a non-positive limit or a threshold outside it |
| `MessageBudget.Budget.Create` | apps/core/iqoption_connection_safety.py:250-264 | an object exists exactly when the constructor accepts the two numbers, with an empty deque and the resolved threshold |
| `MessageBudget.Budget.TryAcquire` | apps/core/iqoption_connection_safety.py:266-283 | deque and decision after the popping loop are those of the step the run theorems are about, the error for a negative reading included |
| `MessageBudget.AtMostLimitPerMinute` | apps/core/iqoption_connection_safety.py:266-283 | in every run on a monotonic clock no half-open 60-second window holds more than `limit` admissions |
| `MessageBudget.DecisionMatchesHistory` | apps/core/iqoption_connection_safety.py:266-283 | the deque is the filter of the whole admission history to the last minute; a call is admitted iff fewer than `limit` are in it, and a refusal found exactly `limit` |
| `SlidingWindow.DropExpiredIsAfter` | apps/core/iqoption_connection_safety.py:266-271 | popping expired entries from the front of an ascending deque removes exactly the entries outside the window |
| `SlidingWindow.AdmissionKeepsSpacing` | apps/core/iqoption_connection_safety.py:153-176 | admitting only while fewer than `limit` entries are live keeps any `limit + 1` consecutive admissions at least a window apart |
| `SlidingWindow.SpacedBoundsWindows` | apps/core/iqoption_connection_safety.py:153-176 | that spacing bounds the admissions of every half-open window by `limit` |
| `LoginSafety.Controller.AdmitHttpLogin` | apps/core/iqoption_connection_safety.py:153-176 | memory, file and answer after an admission request, on every path: quarantined, window full, admitted, save raising |
| `LoginSafety.Controller.RecordFailure` | apps/core/iqoption_connection_safety.py:178-188 | memory, file and reply after a reported failure: the quarantine started at once for the three reasons and left alone for any other, a save that raises changing nothing |
| `LoginSafety.Controller.RecordSuccess` | apps/core/iqoption_connection_safety.py:190-196 | memory, file and reply after a reported success |
| `LoginSafety.Controller.TakeSnapshot` | apps/core/iqoption_connection_safety.py:198-209 | what a snapshot prunes and reports |
| `LoginSafety.Controller.Save` | apps/core/iqoption_connection_safety.py:219-221 | memory changes only if the file did: both are the new state, or both are the old one and the call raises |
| `LoginSafety.AtMostThreeLogins` | apps/core/iqoption_connection_safety.py:153-221 | over every interleaving of admissions, failures, successes, snapshots, failed saves and restarts, no half-open 15 minutes hold more than three admitted logins |
| `LoginSafety.DiskAndMemoryAgree` | apps/core/iqoption_connection_safety.py:211-221 | pruned at any current time, memory and file are the same state and their attempts are the admission history of the last 15 minutes |
| `LoginSafety.RestartIsInvisible` | apps/core/iqoption_connection_safety.py:142-151 | a process restart at any point of any run changes no later answer and no later admission, however the run goes on |
| `LoginSafety.RefusalNeverExtends` | apps/core/iqoption_connection_safety.py:153-176 | a refused request leaves a running quarantine alone and starts one only where there was none |
| `LoginSafety.QuarantineStands` | apps/core/iqoption_connection_safety.py:153-188 | as long as no one succeeds, fails or is admitted, a quarantine keeps its end through requests, snapshots, failed saves and restarts |
| `LoginSafety.NothingLiveAfterQuarantine` | apps/core/iqoption_connection_safety.py:211-217 | when a quarantine has run out, every attempt made before it has left the window |
| `LoginSafety.RetryAfterIsTruthful` | apps/core/iqoption_connection_safety.py:223-238 | after a refusal, through every quiet continuation: until a window past the end of the quarantine a saving request is admitted if and only if that end is reached and fewer than three were admitted since; the end lies within the last advertised second; and if nobody was admitted the same holds for ever |
| `LoginSafety.ThreeEarlierRequestsTakeTheWindow` | apps/core/iqoption_connection_safety.py:153-176 | three can stand in the way: requests at the end of the quarantine fill the window of one that waited the rounded-up seconds |
| `TraderNotifications.NeverParkedWithWork` | apps/core/deriv_auto_trader.py:920-946 | in every interleaving with any number of notifiers, a thread parked on a clear flag has no unevaluated generation unless a notifier is between its increment and its set; the same for stop |
| `TraderNotifications.ParkedMeansUpToDate` | apps/core/deriv_auto_trader.py:928-946 | a parked thread with no notifier in flight has finished an evaluation begun after every notification was issued |
| `TraderNotifications.EvaluationsFollowNotifications` | apps/core/deriv_auto_trader.py:928-994 | recorded generations increase, each was issued before its evaluation began, and evaluations never outnumber notifications |
| `TraderNotifications.TraderCatchesUp` | apps/core/deriv_auto_trader.py:920-946 | left alone the thread records the latest generation within six of its own steps |
| `TraderNotifications.NotExitedUnlessStopped` | apps/core/deriv_auto_trader.py:920-926 | the thread leaves its loop only when stop was asked for |
| `TraderInflight.CacheCoversOpenOrders` | apps/core/deriv_auto_trader.py:951-987 | in every interleaving of evaluations, commits, callbacks in any order and failing queries the cache, when it is not None, holds every open order at the moment of evaluation, and the trader goes on to submit only when none is open, provided submissions do not raise after writing and no other thread reloads; the cache alone, with or without the database index, then keeps it at one order |
| `TraderInflight.RaisingSubmitBreaksIt` | apps/core/deriv_auto_trader.py:537-542 | a run in which submit writes and then raises leaves the trader about to evaluate with a cache that misses the open order |
| `TraderInflight.ExactlyWhenSafe` | apps/core/deriv_auto_trader.py:1032-1098 | the cache covers the open orders at every evaluation of every run if and only if neither of these two circumstances can occur |
| `SignalMemory.Signals.Remember` | apps/core/deriv_auto_trader.py:909-918 | set and list after remembering a key: unchanged for a known one, else appended with the oldest dropped beyond 512 |
| `SignalMemory.Signals.SelectUnevaluated` | apps/core/deriv_auto_trader.py:392-402 | the candidates neither remembered nor at or below their pair's floor, in order |
| `SignalMemory.Signals.BeginNewRun` | apps/core/deriv_auto_trader.py:204-228 | each pair's floor becomes the epoch listed last for it; without telemetry the floors stay |
| `SignalMemory.FifoIsTheLatest` | apps/core/deriv_auto_trader.py:909-918 | in every run the set holds exactly the keys of the list, the list has no duplicates and is the last min(512, n) keys of the insertion history |
| `SignalMemory.NoEarlyResubmission` | apps/core/deriv_auto_trader.py:477-479 | a signal submitted twice was inserted twice with at least 512 other keys remembered in between |
| `SignalMemory.RepeatsAreFarApart` | apps/core/deriv_auto_trader.py:909-918 | two insertions of one key lie more than 512 apart with 512 distinct others between |
| `SignalMemory.RearmShutsOutTheVisible` | apps/core/deriv_auto_trader.py:222-228 | a re-arm shuts out every candidate of its snapshot if and only if no pair lists an older signal after a newer one |
| `SignalMemory.NothingVisibleIsSubmitted` | apps/core/deriv_auto_trader.py:204-228 | until the next re-arm, a round that filters after this one submits nothing at or below what was visible for its pair |
| `SignalMemory.AtMostOneOvertakes` | apps/core/deriv_auto_trader.py:392-402 | a round already past its filter may still submit; at most one such submission overtakes a re-arm |
| `SignalMemory.RearmCanBeOvertakenOrForgotten` | apps/core/deriv_auto_trader.py:204-228 | both limits are real: an overtaking run, and a second re-arm that forgets the first floor |
| `SignalMemory.RearmHoldsExactly` | apps/core/deriv_auto_trader.py:204-228 | in every run, after a re-arm and for as long as later re-arms shut a signal out, it can still be submitted if and only if an evaluation past its filter held it at the re-arm, or the re-arm itself did not shut it out |
| `PerformanceGate.PerformanceGate.PerformanceAllows` | apps/core/deriv_auto_trader.py:744-861 | probe, pause and verdict after a check, on every branch: payout-routed, cache missing, short window, winning, paused, pending, granted, probing |
| `PerformanceGate.PerformanceGate.ConsumeProbe` | apps/core/deriv_auto_trader.py:893-902 | the probe count and the pending mark after an order |
| `PerformanceGate.PerformanceGate.RecordSettlement` | apps/core/deriv_auto_trader.py:971-983 | the sample is appended to its key's window unless its order is known there, the oldest dropped beyond 30, and the pending mark taken off |
| `PerformanceGate.SettleKeepsTidy` | apps/core/deriv_auto_trader.py:971-983 | after a settlement its order is in the window of its key, and no window has more than 30 samples or an order twice |
| `PerformanceGate.WindowsStayTidy` | apps/core/deriv_auto_trader.py:951-985 | in every run whose reloads bring such windows, every window has at most 30 samples and no order twice |
| `PerformanceGate.PerformanceGate.NotifyOrderEvent` | apps/core/deriv_auto_trader.py:951-985 | which events reach the window: settled, with a result, applied, of a known scope and with the in-flight set available; and what becomes of the scope |
| `PerformanceGate.PauseLeft` | apps/core/deriv_auto_trader.py:744-861 | the whole seconds still to wait are the floor of the time left of ten minutes |
| `PerformanceGate.TenOrdersBetweenGrants` | apps/core/deriv_auto_trader.py:744-861 | while a key's window stays losing, the orders written between consecutive grants are exactly ten more than the submissions that raised after writing; at most ten counted ones follow the last grant, and before the first only the probes left over are used |
| `PerformanceGate.EscapesAreUnbounded` | apps/core/deriv_auto_trader.py:537-542 | that excess has no bound: with probes left, any number of rounds whose submission raises after writing leave the gate as it was and the key allowed again |
| `PerformanceGate.GrantsWaitOutThePause` | apps/core/deriv_auto_trader.py:744-861 | in every run, however the two clocks move, a grant finds no pending probe and either a stored pause that has run out on the monotonic clock, its length being what UTC showed as left when it was stored, or none and less than a second left on UTC |
| `PerformanceGate.SteadyClocksWaitTenMinutes` | apps/core/deriv_auto_trader.py:744-861 | where the clocks did not move against each other that is more than 599 seconds after the settlement |
| `TraderInflight.ForeignReloadBreaksIt` | apps/core/lifecycle_service.py:1294 | a run in which a reload on the reconciliation's thread surrounds a submission leaves the trader about to evaluate with a cache that misses the open order |
| `TraderInflight.IndexKeepsOneOrder` | packages/persistence/migrations.py:121-125 | whatever happens, both circumstances included, the unique index on active reservations keeps the account at one active reservation and so at one open order, because the second order's own transaction is refused |
| `SignalMemory.RearmShutsOutTelemetry` | apps/core/deriv_auto_trader.py:645-711 | each of the three sources of candidates (the matrix of all engines, the ranking of assets, the strategies of one symbol) lists a pair at most once, so a re-arm shuts out everything it shows |
| `SignalMemory.RearmOnTelemetryHoldsExactly` | packages/strategies/deriv_digits.py:891-896 | with that telemetry a signal shown at a re-arm, or an older one of its pair, can still be submitted if and only if it was in flight then |
| `TickHistory.PagedTickHistory` | apps/core/deriv_telemetry.py:420-453 | the bounds error, its condition, and otherwise the ticks and number of requests of the paged walk |
| `TickHistory.FetchPage` | apps/core/deriv_telemetry.py:432-452 | one turn of the loop: request size, merge, next end epoch and both stopping conditions |
| `TickHistory.AnyServer` | apps/core/deriv_telemetry.py:420-453 | against any server: at most ceil(count / page size) requests, at most count ticks, ascending, no identity twice |
| `TickHistory.PagedIsOneQuery` | apps/core/deriv_telemetry.py:420-453 | against an honest server the walk gives what one query for count ticks would give, if and only if no page boundary cuts through ticks of one epoch |
| `TickHistory.OneTickPerEpoch` | apps/core/deriv_telemetry.py:420-453 | with one tick per epoch the walk is exactly the last count ticks of the history |
| `TickHistory.DirtyCutLosesATick` | apps/core/deriv_telemetry.py:446-450 | at a boundary that does cut through an epoch, a tick one query would return is lost for good |
| `TickHistory.SortPermutes` | apps/core/deriv_telemetry.py:453 | the final sort is ascending and keeps exactly the collected ticks |
| `TickHistory.MergeKeepsFirstPlaceLastValue` | apps/core/deriv_telemetry.py:444-445 | merging pages leaves every tick identity at the place of its first appearance with the value of its last |
| `IdentityService.FakeIdentityService.CompleteLogin` | apps/auth_agent/fake_service.py:154-176 | every record after a login attempt, on each error path and on success |
| `IdentityService.FakeIdentityService.RefreshSession` | apps/auth_agent/fake_service.py:178-199 | families, live and used digests after a refresh: rotated, reuse revoking the family, unknown, revoked, unavailable |
| `IdentityService.FakeIdentityService.RegisterDevice` | apps/auth_agent/fake_service.py:201-224 | the device record after a registration, and which error it meets, a text that is no public key included |
| `IdentityService.FakeIdentityService.CreateDeviceChallenge` | apps/auth_agent/fake_service.py:226-244 | the challenge record after a request for one, and which error it meets |
| `IdentityService.FakeIdentityService.IssueLease` | apps/auth_agent/fake_service.py:246-293 | the consumed challenge and the lease or error, in the order in which the checks are made |
| `IdentityService.AccessTokensAnswer` | apps/auth_agent/fake_service.py:317-334 | in every run an access token speaks for a user if and only if the service is up and a login or refresh handed it out to that user less than 600 seconds before; otherwise it is refused as invalid, or as unavailable |
| `IdentityService.TokensRotate` | apps/auth_agent/fake_service.py:178-199 | over every run each family has exactly one live digest and it is its active one, live and used are disjoint, and each refresh token is accepted at most once |
| `IdentityService.ReuseEndsTheFamily` | apps/auth_agent/fake_service.py:178-199 | presenting an accepted token again is answered as reuse and no token of its family is accepted in any continuation (section 4.14.2 of RFC 9700) |
| `IdentityService.RevokedForGood` | apps/auth_agent/fake_service.py:178-199 | a revoked family stays revoked and never rotates again |
| `IdentityService.ChallengesAreOneTime` | apps/auth_agent/fake_service.py:154-176 | no login challenge and no device challenge is redeemed twice in any run |
| `IdentityService.NoLeaseAfterRevocation` | apps/auth_agent/fake_service.py:295-298 | after a device is revoked no lease is issued for it in any continuation |
| `IdentityService.LoginNeedsCodeAndVerifier` | apps/auth_agent/fake_service.py:154-176 | a login succeeds if and only if the service is up, the challenge pending and unexpired, and both code and PKCE verifier fit (section 4.6 of RFC 7636) |
| `AuthAgent.Agent.RotateSession` | apps/auth_agent/agent.py:158-175 | the vault holds the new token before anything else can fail; the rotation is refused exactly when the service is down; the new access token speaks for the user of the family |
| `AuthAgent.Agent.RenewSilently` | apps/auth_agent/agent.py:158-195 | refused iff there is a token and the service is down at the first call; complete iff there is a token, every call finds the service up, the device is unknown or the session user's with this key and unrevoked, nobody revokes it meanwhile and the verifier accepts; which state and device flag every ending leaves; the vault has the active token after each of them, an escaping verifier error included |
| `AuthAgent.Agent.CheckLeaseRevocation` | apps/auth_agent/agent.py:259-264 | when the check of the held lease stops the renewal and how, and that a revoked lease is noted |
| `AuthAgent.Agent.ObtainAndStoreLease` | apps/auth_agent/agent.py:239-257 | the lease for this device and user is stored and held iff the token is live, every call finds the service up, the device is new or the user's own with this key, it is not revoked on the way and the verifier accepts; otherwise the first thing that went wrong is the answer and the old lease stays |
| `AuthAgent.Agent.StoreSession` | apps/auth_agent/agent.py:233-237 | user and refresh token of the new session are in the vault |
| `AuthAgent.AgentStaysInStep` | apps/auth_agent/agent.py:111-195 | in every interleaving of logins, renewals, outages, revocations and other clients, an agent at rest holds the active token of an unrevoked family, so a renewal succeeds exactly when the service is up and never revokes a family |
| `AuthAgent.OnlyTheftBreaksStep` | apps/auth_agent/agent.py:158-195 | an agent at rest is thrown out of step if and only if another client presents a token of its family while the service answers |
| `AuthAgent.TheftIsFoundOut` | apps/auth_agent/agent.py:158-195 | after such a use the agent's next renewal is answered as reuse and the other client's new token is dead too |
| `AuthAgent.CurrentSurvives` | apps/auth_agent/agent.py:158-195 | a call that presents no token of the family leaves its current token current |
| `AuthAgent.CurrentIsAccepted` | apps/auth_agent/agent.py:158-195 | presenting the current token fails only for unavailability, and then changes nothing |
| `KeyRegistry.AuthAgentServer.StoreIssuedLease` | apps/auth_agent/agent.py:239-257 | an issued lease is stored if and only if the process's own verifier accepts it |
| `ReplyCache.Cache.DispatchCached` | apps/auth_agent/server.py:336-353 | dictionary and reply after a request: replay moved to the end, conflict, raise, or answer appended with the oldest evicted beyond 128 |
| `ReplyCache.HoldsTheMostRecent` | apps/auth_agent/server.py:336-353 | in every run an id is cached if and only if it was answered and fewer than 128 distinct other ids were answered since, and its entry is the latest answer |
| `ReplyCache.ReplayIsIdempotent` | apps/auth_agent/server.py:336-353 | until 128 other ids were answered an identical replay gets the stored answer without a dispatch and a conflicting one is refused with nothing changed; only then is the id dispatched again |
| `KeyRegistry.AuthAgentServer.Start` | apps/auth_agent/server.py:182-199 | registry, process key and verifier after a start, and exactly when a start is refused |
| `KeyRegistry.RestartsNeverRunOut` | apps/auth_agent/server.py:182-199 | over every run of starts, stored, lost and unreadable leases: no start is refused, the registry has at most two keys, and a readable stored lease verifies with registry and process |
| `KeyRegistry.PruningKeepsTheLease` | apps/auth_agent/server.py:136-144 | dropping the other keys never costs the stored lease its key |
| `ShadowSession.BrokerShadowSession.RegisterSeries` | apps/core/broker_shadow_session.py:110-123 | the series list after a registration, and which of the four errors it meets |
| `ShadowSession.BrokerShadowSession.StartSession` | apps/core/broker_shadow_session.py:125-156 | session and reply after a start, with the failed session left without runtimes when anything raises |
| `ShadowSession.BrokerShadowSession.InstallRuntimes` | apps/core/broker_shadow_session.py:259-278 | one fresh runtime per registered series in order, and the cursor at the first |
| `ShadowSession.BrokerShadowSession.PollOnce` | apps/core/broker_shadow_session.py:158-191 | which series a poll goes to, the counters, the next cursor and the state, whatever the worker, the poll or the disconnects raise |
| `ShadowSession.BrokerShadowSession.RecoverSession` | apps/core/broker_shadow_session.py:193-220 | session and reply after a recovery, also one that raises while disconnecting or stopping |
| `ShadowSession.BrokerShadowSession.ShutdownSession` | apps/core/broker_shadow_session.py:222-228 | session after a shutdown, also one that raises half-way |
| `ShadowSession.TurnsAreFair` | apps/core/broker_shadow_session.py:158-191 | since the last install the turns of any two series differ by at most one, earlier ones ahead, and add up to the polls made since; the session's total is the turns of all runtimes it ever had |
| `ShadowSession.StateTellsSeries` | apps/core/broker_shadow_session.py:297-308 | runtimes are those of the registered series in order; a stopped or failed session has none; a failed one stays as it is until recovered or shut down |
| `ShadowSession.RunningHasSeriesExactly` | apps/core/broker_shadow_session.py:222-228 | a session is running without runtimes if and only if a shutdown raised while it was running and neither a recovery nor a shutdown that went through came after |
| `ShadowSession.RaisingShutdownLeavesItRunning` | apps/core/broker_shadow_session.py:158-163 | on such a session every poll raises |
| `SoakRunner.BrokerShadowSoakRunner.SampleResources` | apps/core/broker_shadow_soak.py:419-447 | latest sample and maxima; raises when the session lists no series, keeping the lag maximum |
| `SoakRunner.BrokerShadowSoakRunner.SessionAction` | apps/core/broker_shadow_soak.py:388-417 | counters, session and failure reason for each session state |
| `SoakRunner.BrokerShadowSoakRunner.Start` | apps/core/broker_shadow_soak.py:302-314 | runner after a start, exhausted at once if the first sample is over a limit |
| `SoakRunner.BrokerShadowSoakRunner.Settle` | apps/core/broker_shadow_soak.py:330-343 | action, second sample, then exhausted, failed, running or degraded |
| `SoakRunner.BrokerShadowSoakRunner.Cycle` | apps/core/broker_shadow_soak.py:316-343 | runner and outcome of a whole cycle, with every call that can raise |
| `SoakRunner.BrokerShadowSoakRunner.RunUntilComplete` | apps/core/broker_shadow_soak.py:345-363 | the loop, which ends on every input, and its verdict |
| `SoakRunner.BrokerShadowSoakRunner.Shutdown` | apps/core/broker_shadow_soak.py:365-371 | runner after a shutdown, also one that raises |
| `SoakRunner.BrokerShadowSoakRunner.End` | apps/core/broker_shadow_soak.py:483-493 | runner after failing or being exhausted: state, reason and the session shut down |
| `SoakRunner.CountersAgree` | apps/core/broker_shadow_soak.py:316-417 | in every run of every call: failures <= attempts, attempts + recoveries <= cycles, recoveries <= the limit |
| `SoakRunner.EndedStaysEnded` | apps/core/broker_shadow_soak.py:316-363 | completed, failed and exhausted are final: no sequence of calls without a shutdown changes anything |
| `SoakRunner.CycleProgresses` | apps/core/broker_shadow_soak.py:316-343 | every cycle that returns has counted itself or ended the runner, and none counts more than one |
| `SoakRunner.ExhaustedExactlyOverLimit` | apps/core/broker_shadow_soak.py:449-481 | a cycle that returns leaves the runner exhausted iff the latest sample is over a limit, naming it, and otherwise, unless it failed, running or degraded as its session is |
| `SoakRunner.CompletionIsEarned` | apps/core/broker_shadow_soak.py:345-363 | run_until_complete ends within the cycle limit; completion means every cycle was run and the session is running |
| `SoakRunner.FailureReturnsExactlyWithSeries` | apps/core/broker_shadow_soak.py:434-447 | a cycle whose session action fails returns that failure if and only if the session still lists a series after its shutdown; otherwise it raises with the runner failed |
| `SoakRunner.FailedCycleNeverReturns` | apps/core/broker_shadow_soak.py:316-343 | so with a session emptied by its shutdown no cycle returns a failed runner it was not given |
| `TemporalSoak.BrokerShadowTemporalSoakRunner.Run` | apps/core/broker_shadow_soak.py:522-569 | a report is about the time from the first clock reading to the one made right after the loop, whose number follows from the cycles run; every earlier check found the window not over and the last one found it over, by a reading it made; PASSED iff the plan is met by these; the samples are the due ones and the final one, each with the reading made for it; without a report a cycle, the after-cycle hook or the shutdown raised |
| `TemporalSoak.BrokerShadowTemporalSoakRunner.MaybeRecord` | apps/core/broker_shadow_soak.py:584-615 | kept samples are the latest of those taken, numbered from one without a gap, and dropped + kept = taken |
| `TemporalSoak.Evaluate` | apps/core/broker_shadow_soak.py:617-662 | PASSED if and only if every clause of the plan is met; a rejection names the first clause that is not, and each is named exactly when it is the first |
| `TemporalSoak.TrajectoryIsBounded` | apps/core/broker_shadow_soak.py:522-546 | a window of n cycles has counted n, or n - 1 if the last one ended the runner |
| `TemporalSoak.NoReportOfAFailure` | apps/core/broker_shadow_soak.py:522-569 | with a session emptied by its shutdown no window that runs into a failure comes to a report |
| `SoakSystem.RunKeepsInv` | apps/core/broker_shadow_soak.py:302-371 | over the shipped session, with every reply computed by it, the runner's view is the session's state and series in every run of starts, cycles, completions and shutdowns |
| `SoakSystem.NoCycleReturnsItsFailure` | apps/core/broker_shadow_soak.py:316-343 | in every such run a cycle that returns a failed runner was given a failed one |
| `SoakSystem.FailingCycleRaises` | apps/core/broker_shadow_soak.py:434-447 | a failing session action makes the cycle raise for want of a series, with the runner failed |
| `SoakSystem.FailureHappens` | apps/core/broker_shadow_soak.py:388-417 | such a run exists: one series, a poll that raises and no recovery allowed |
| `SoakSystem.DriveIsTheLoop` | apps/core/broker_shadow_soak.py:345-351 | the loop over the shipped session is the runner's loop on the replies the session gives |
| `SoakSystem.CompletionFailsOnlyUnready` | apps/core/broker_shadow_soak.py:345-363 | over the shipped session run_until_complete returns a failed runner it was not given only for a session not ready at completion |
| `SoakSystem.NoWindowReportsAFailure` | apps/core/broker_shadow_soak.py:522-569 | no time window over the shipped session comes to its end with a failure it did not begin with |
| `SoakRunner.ShippedSessionEmpties` | apps/core/broker_shadow_session.py:297-308 | the shipped session is of that kind: after any run its shutdown leaves no series |
| `HealthGate.StateFromReasons` | apps/core/health.py:150-158 | open iff there is no reason; else the first of the priority list, or the alphabetically first if none is listed |
| `HealthGate.Earliest` | apps/core/health.py:153-156 | the minimum of a set of strings in code point order |
| `HealthGate.AnswersAreUnique` | apps/core/health.py:150-158 | a set of reasons has exactly one answer |
| `HealthGate.HealthGate.GlobalState` | apps/core/health.py:72-78 | the database's answer first, else that of the global facts |
| `HealthGate.HealthGate.WholeState` | apps/core/health.py:80-89 | the database's answer first, else that of all facts, gathered scope by scope |
| `HealthGate.HealthGate.StateFor` | apps/core/health.py:91-108 | the dictionary of sets answers as the plain set of facts does: global ones, else the account's own with its broker's market data |
| `HealthGate.HealthGate.CanEnterOrder` | apps/core/health.py:110-117 | asking the global state first never changes the account's answer |
| `HealthGate.HealthGate.EnsureOpen` | apps/core/health.py:232-242 | half a scope is an error; a whole one asks the account, none the global state |
| `HealthGate.HealthGate.Contains` | apps/core/health.py:189-193 | whether any fact has the reason |
| `HealthGate.HealthGate.Block` | apps/core/health.py:160-165 | adds one global fact |
| `HealthGate.HealthGate.ClearIf` | apps/core/health.py:167-184 | removes the facts with that reason everywhere and no others |
| `HealthGate.HealthGate.BlockScope` | apps/core/health.py:195-207 | adds one fact of the account |
| `HealthGate.HealthGate.ClearScope` | apps/core/health.py:209-225 | removes one fact of the account and no other |
| `HealthGate.HealthGate.RegisterBrokerHealth` | apps/core/health.py:119-134 | which fact readiness removes and unreadiness adds |
| `HealthGate.HealthGate.FailDatabase` | apps/core/health.py:227-230 | marks a watched database and adds the global fact |
| `HealthGate.ScopedFactsStayHome` | apps/core/health.py:98-108 | a fact of an ordinary account changes no other account's reasons, added or removed |
| `HealthGate.FactsHold` | apps/core/health.py:91-108 | an account's own fact, its broker's market-data fact and any global fact each close the gate for it |
| `HealthGate.HeldOnlyByFacts` | apps/core/health.py:91-108 | and nothing else does |
| `HealthGate.SameFactsSameAnswer` | apps/core/health.py:91-108 | gates that know the same facts answer alike, whatever empty entries their history left |
| `Coordinator.OutboxDispatcher.DispatchNext` | apps/core/coordinator.py:109-159 | gate, reply and what was sent and recorded, for every claim, worker reply and failed write |
| `Coordinator.OrderCoordinator.SubmitOrder` | apps/core/coordinator.py:189-249 | gate, reply and what was stored, sent and recorded by a submission, on every path |
| `Coordinator.OrderCoordinator.DispatchPendingOrder` | apps/core/coordinator.py:251-257 | half a scope is an error; a closed gate turns the dispatch away with nothing sent, with and without a scope |
| `Coordinator.UnscopedAsksOnlyTheGlobalGate` | apps/core/coordinator.py:251-257 | without a scope the dispatch goes ahead whatever is held at the account |
| `Coordinator.UncertainClosesExactly` | apps/core/coordinator.py:126-158 | an uncertain dispatch of an admitted account closes the gate for it, except exactly when recording was refused, or failed with no database watched |
| `Coordinator.OthersAreUntouched` | apps/core/coordinator.py:109-159 | a dispatch for an ordinary account leaves every other account's reasons as they were |
| `Coordinator.RefusedUntilCleared` | apps/core/coordinator.py:189-257 | after an uncertain dispatch, whatever else happens to the gate, every later submission and pending dispatch of that account is turned away before anything is persisted or sent, until HG_ORDER_UNKNOWN is cleared |
| `Coordinator.ClearingReadmits` | apps/core/coordinator.py:155-158 | clearing it readmits the account when it was the only reason |
| `AccountSerializer.Serializer.LockFor` | apps/core/coordinator.py:70-75 | the registry after asking for an account's lock: one lock per account, created on first use and kept |
| `AccountSerializer.OneThreadPerAccount` | apps/core/coordinator.py:63-76 | in every interleaving two threads are never inside one account's section at once, however the broker is spelled |
| `AccountSerializer.WaitsOnlyForItsAccount` | apps/core/coordinator.py:63-76 | a thread that cannot enter waits for another one inside its own account's section: accounts never hold each other up |
| `Coordinator.HoldLasts` | apps/core/coordinator.py:109-257 | no step but a clearing one removes an unknown order from the gate |
| `LoginReports.AdmittedExactly` | apps/core/iqoption_connection_safety.py:153-176 | in every run a request whose save succeeds is admitted iff no quarantine runs and fewer than three requests were admitted in the quarter of an hour before |
| `LoginReports.FailureShutsOut` | apps/core/iqoption_connection_safety.py:178-188 | after a saved failure for one of the three reasons every request of the next fifteen minutes is refused, through failed saves and restarts, unless a success is recorded, and is told a wait that covers them |
| `LoginReports.OtherFailuresLeaveIt` | apps/core/iqoption_connection_safety.py:178-188 | a failure for any other reason, or one that could not be saved, leaves the quarantine's end alone |
| `LoginReports.SuccessLetsIn` | apps/core/iqoption_connection_safety.py:190-196 | after a saved success the next request is admitted iff fewer than three were admitted in the window: the quarantine is over, the attempts stay |
| `LoginReports.AnswersReport` | apps/core/iqoption_connection_safety.py:198-232 | in every run decisions and snapshots report the admissions still in the window, whether a quarantine runs, and its remaining seconds rounded up |
| `LoginReports.ReasonIsTheLatest` | apps/core/iqoption_connection_safety.py:168-209 | in every run, restarts included, the reason shown is that of the last saved failure or full window since the last saved success |
| `PerformanceVerdict.WindowPlaces` | apps/core/deriv_auto_trader.py:755-769 | the window is, in order, exactly the samples that a reset does not leave out, that are among the last windowTrades of those, and that settled within windowHours of the clock |
| `PerformanceVerdict.WindowIs` | apps/core/deriv_auto_trader.py:755-769 | whoever lists the places of those samples has the window the check uses |
| `PerformanceVerdict.TotalIsAdditive` | apps/core/deriv_auto_trader.py:771 | the total of two lists is the sum of their totals |
| `PerformanceVerdict.TotalIsPnlAt` | apps/core/deriv_auto_trader.py:771 | the total of a window is the profit and loss at its places, added up |
| `PerformanceVerdict.VerdictIs` | apps/core/deriv_auto_trader.py:770-861 | paused iff ten or more samples count and earn nothing, no probe is left, and an order is pending or the pause still runs; otherwise allowed iff the estimate reaches the requirement raised by the edge floor or the cap, whichever is less; and which probes and pause are stored |
| `PerformanceVerdict.VerdictWithoutWindow` | apps/core/deriv_auto_trader.py:749-754 | the payout-routed strategy is always allowed, any other is refused while the cache is missing |
| `PerformanceGate.NoticeRecordsExactly` | apps/core/deriv_auto_trader.py:951-985 | a notice adds a sample iff it is the first applied result of an order of a known key while the in-flight set is known; the thirty latest stay; every notice of an end forgets the key |
| `PerformanceGate.PendingHoldsBack` | apps/core/deriv_auto_trader.py:774-861 | over every run: from a probe order until a result of its key is recorded the key stays pending, gains no probe, and once none is left every losing check is refused |
| `PerformanceGate.ConflictStopsRecording` | apps/core/deriv_auto_trader.py:957-959 | over every run: from a conflict until a reload answers no notice reaches a window or forgets an order |
| `TraderInflight.NoOrderAfterConflict` | apps/core/deriv_auto_trader.py:951-985 | over every interleaving: from a conflict notice until a reload answers no order is written, except one at most by a trader that had passed its check before the notice |
| `TraderInflight.CacheMoves` | apps/core/deriv_auto_trader.py:951-985 | what makes an order enter a known cache and what makes it leave, exactly |
| `TraderInflight.CacheIsReplaced` | apps/core/deriv_auto_trader.py:957-959 | the set is replaced only by a conflict or a reload, and then by what the database had when asked |
| `IdentityProofs.LeaseNeedsProof` | apps/auth_agent/fake_service.py:246-270 | a lease is issued iff the live token's user owns the unrevoked device and signs, with its key, the nonce of an unused, unexpired challenge of that user and device |
| `IdentityProofs.LeaseFollowsChallenge` | apps/auth_agent/fake_service.py:226-270 | in every run each lease follows a challenge made for its user and device less than 120 seconds before, whose nonce the device's key signed |
| `IdentityProofs.SessionFollowsLogin` | apps/auth_agent/fake_service.py:126-176 | in every run each completed login was started less than 300 seconds before, with the code generated then and the transform of the verifier presented |
| `IdentityProofs.ChallengeNeedsDevice` | apps/auth_agent/fake_service.py:226-244 | a device challenge is made iff the token's user owns the unrevoked device |
| `IdentityProofs.RegistersExactly` | apps/auth_agent/fake_service.py:201-224 | registering succeeds iff the device is new or already the user's with this key and unrevoked, and then makes or leaves it so |
| `IdentityProofs.SameAddressSameUser` | apps/auth_agent/fake_service.py:154-176 | in every run two logins give the same user iff they are for the same address |
| `AuthAgent.CompleteExactly` | apps/auth_agent/agent.py:158-195 | a session ends with a lease iff nothing hinders it, and escapes only through the verifier |
| `AuthAgent.Agent.RequestLease` | apps/auth_agent/agent.py:239-252 | the three device calls yield the lease answering the challenge just made iff the service is up at each and the device serves; otherwise the error of the first thing that went wrong |
| `AuthAgent.Agent.Conclude` | apps/auth_agent/agent.py:175-195 | the state and device flag each ending leaves |
| `KeyRegistry.IssuedLeaseSurvives` | apps/auth_agent/server.py:182-199 | in every run the lease a started process issues is stored, and verifies through every later start, however many |
| `SessionAccounts.RegistersExactly` | apps/core/broker_shadow_session.py:110-123 | a series is registered iff the session is stopped, the broker is its own, the series is new and there is room |
| `SessionAccounts.RegistrationsAreDistinct` | apps/core/broker_shadow_session.py:110-123 | in every run no series is registered twice and never more than allowed |
| `SessionAccounts.StateMoves` | apps/core/broker_shadow_session.py:125-228 | the state after every call, each one by an if-and-only-if over the state before and what the environment did |
| `SessionAccounts.RepliesExactly` | apps/core/broker_shadow_session.py:125-228 | what start, poll and recover answer or raise, each by an if-and-only-if |
| `SessionAccounts.CountersAreExact` | apps/core/broker_shadow_session.py:125-228 | in every run each counter is the number of times its event happened: starts, recoveries, polls of a series, failed polls |
| `SoakReadings.LimitsSpeakExactly` | apps/core/broker_shadow_soak.py:449-468 | each limit's reason is given iff its own reading is missing or over and none before it is; none iff nothing is over |
| `SoakReadings.MaximaAreOfAllReadings` | apps/core/broker_shadow_soak.py:419-447 | in every run the maxima shown are the largest of all readings taken, and the latest is the last |
| `SoakReadings.ActionExactly` | apps/core/broker_shadow_soak.py:388-417 | what a session action counts, and when it fails the runner with which reason, each by an if-and-only-if |
| `SoakReadings.StartsExactly` | apps/core/broker_shadow_soak.py:302-314 | when a start raises, exhausts, or leaves the runner running or degraded |
| `SoakReadings.FinishesExactly` | apps/core/broker_shadow_soak.py:345-363 | completed iff the session runs at the end, failed as not ready otherwise, an ended runner kept |
| `SoakReadings.ShutsDownExactly` | apps/core/broker_shadow_soak.py:365-371 | stopped iff the session's shutdown returns; counters and maxima stay |
| `TemporalSoak.EarlyStopIsLongEnough` | apps/core/broker_shadow_soak.py:575-582 | a window that stops for its duration did so on the last reading it made; on a clock that does not go back its report does not fall short of duration or minimum |
| `TemporalSoak.SamplesAreTheDueOnes` | apps/core/broker_shadow_soak.py:584-615 | the samples of a window are the snapshots due, in order |
| `Coordinator.PlacedExactly` | apps/core/coordinator.py:189-249 | an order is placed iff the entry is authorized, the refreshed gate admits the account, the ledger reserved it, it was persisted, and a dispatch, if asked for, did not raise; stored iff the first four hold |
| `Coordinator.OtherwiseNothingHappens` | apps/core/coordinator.py:189-249 | without those four nothing is stored, sent or recorded, whatever the delivery would have been; the gate has the ledger's changes, and the failed database if persisting failed; and which error is raised |
| `Coordinator.SentExactly` | apps/core/coordinator.py:109-128 | a command goes to the worker iff it was claimed before its deadline, once and before anything is recorded of it |
| `Coordinator.RecordedExactly` | apps/core/coordinator.py:121-152 | what is recorded of a claimed command: cancelled, not sent, the worker's result, or possibly sent when there was none |
| `Coordinator.DispatchLeavesExactly` | apps/core/coordinator.py:128-158 | the gate gains one fact of the command's account, by what was recorded of it, or none; the database is marked only for a broken write |
| `Coordinator.RiskFactsExactly` | apps/core/risk.py:541-592 | what a sequence of the ledger's blocks and clears leaves in the gate: every global reason as its last change says, an account's own facts unless cleared |
| `HealthGate.KeysFoldCase` | apps/core/health.py:196 | two scopes are one iff the accounts are equal and the brokers differ in case at most |

## Left out

- CommandLine.JoinArguments: does not model NUL characters and the length limit of a Windows command line, because the launcher does not either.
- LoginSafety, MessageBudget: clocks do not run backwards within a run; a negative reading is the error the code makes of it; floating-point seconds are reals.
- LoginSafety: a state file written by anything but this controller, and its parsing.
- TraderNotifications: an exception escaping an evaluation, which ends the thread, and the time spent waiting out the minimum interval.
- TraderInflight: orders of other submitters. Of the writer it is used that an order and its active reservation are one transaction, that a reservation is released only with a terminal state, and that the index allows one per account (packages/persistence/writer.py:348-400).
- SignalMemory: how candidates are computed, arbitrated and priced. That an engine holds one symbol and a registry one registration per strategy is used as given.
- PerformanceGate: payout-routed candidates beyond their always being allowed, manual resumption, and status texts.
- TickHistory: the transport, and retries beneath a single request.
- IdentityService: e-mail normalisation, lease revocation lists, and cryptography; digests and signatures are injective and generated values fresh.
- AuthAgent: the class covers renewal and the lease steps; logins and other clients are steps of the interleaving model. Malformed service answers, restoring at start-up, crashes between rotation and storing, and vault failures are not modelled; the calls of one renewal read the same time, so its access token does not expire between them.
- ReplyCache: the fingerprint is taken as injective on what it covers; framing, authentication and deadlines of requests.
- KeyRegistry: a registry document that cannot be decoded, which refuses the start.
- ShadowSession: the tick router, and elapsed time.
- SoakRunner: emitted events, CPU seconds and process ids of samples; the cycle hook may change the session or raise, but not the runner.
- TemporalSoak: the scenario matrix over several windows; the after-cycle hook may raise, but does not change the runner.
- HealthGate: upper case of non-ASCII broker names, the snapshot for display, and emitted events.
- Coordinator: runs are sequential. The gate is asked before the account's lock is taken, so a submission that has passed it before another one's dispatch becomes uncertain is not covered.
- Coordinator: of the writer it is used that a scoped claim returns a command of that scope and that a transaction commits, is refused, or breaks and marks the database.
- The SQLite writer and reader, the risk ledger, the martingale allocator, signal arbitration, lease verification, sockets, subprocess supervision, the vault, configuration range checks and the user interface: I/O, foreign calls, or members that would only be easy.
