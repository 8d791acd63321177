# QiYan coordination core: a Dafny model

QiYan coordinates one assistant turn at a time over an unreliable app-server. Every tool effect goes
through a durable ledger, and several recovery engines race with reconnects, timers and terminal
notifications. This project models the parts whose correctness depends on how those things
interleave, and proves what they promise over every interleaving.

Each component comes in two halves. One is a specification: values, the steps the code takes between
two awaits, and properties of every run of those steps (`Runs.dfy` has the two induction rules they
share). Where the source keeps fields, the other is a class with those fields, whose methods change
them in place and are proved equal to the steps of the specification; a protocol whose whole state is
durable rows and awaits, like the post-turn actions' handlers, has the first half only.

| modules | component |
|---|---|
| `ManagedRecovery`, `RecoveryFailures`, `ParkedKeys`, `ManagedRecoveryOwner` | recovery of managed sessions, one endpoint's lane |
| `RecoveryDecisions`, `NoDispatch` | routing of recovered operations; "it was never dispatched" |
| `LifecycleFence` | what a restart or disconnect does with earlier operations |
| `RecoveryChains` | one recovery pass, and the durable give-up budget |
| `ReconciliationLoop`, `TerminalWaiters`, `ReadyBuffer` | coalescing of passes, waiters, ready events |
| `TurnCapacity`, `AppServerPool` | capacity claims of turns |
| `Dispatcher`, `NativeSide`, `ConversationDispatcher` | one start: response, started and terminal notifications |
| `SubmissionGate`, `AdmissionGate`, `SubmissionTraffic` | one native submission at a time, and the admission of a start |
| `SchedulerQueue`, `AssistantScheduler` | users, events, batches, fairness |
| `ThreadHistory` | the budgeted reader of native history |
| `ToolDispatch`, `CallOutcomes`, `DirectiveSelection` | tool calls, directives and crashes |
| `PostTurnActions`, `AssistantCompaction`, `AssistantRestart` | actions after the turn |
| `AttemptRuntime` | bounded retry of assistant attempts |
| `ManagedEndpoint` | connection generations |
| `JsonlFraming` | the bounded line reader |

Ids, cursors, times and bytes are numbers; sequence numbers of operations are distinct, as the
ledger's unique index makes them; turn keys are tuples instead of colon-joined strings. JavaScript
maps and sets iterate in insertion order and the source evicts by that order, so the evicting tables
are sequences without duplicates. Cache bounds (8 and 1 000), batch and line limits and the number of
retries are parameters. What the network, the
clock, the other instance on the ledger or a provider answers is always an arbitrary parameter or
event. Observer callbacks are total.

## What turned out otherwise

- **A capacity claim can outlive its turn** (`Dispatcher.LeakingOrder`). When a correlated started
  notification has bound the attempt, the start response then reports a terminal status, and no
  terminal notification came before it, the response handler sees `already_terminal_same` and skips
  `markTurnTerminal`; the later terminal notification finds no current attempt. The attempt and the
  single `onTerminal` are right in this order too. `Dispatcher.StartSettlesIff` proves that every
  other order ends settled, and that this one does not.
- **A parked key can be attempted once more** (`ParkedKeys.OutsideParkIsAttempted`). A key that
  `recordFailure` parks while a run of the current epoch is queued or in flight is still reached by
  that run. `ParkedKeyIsReachedIff` says exactly when; a key that a run parks does wait.
- **A creation can be retired after it was sent** (`NoDispatch.CreationIsSoundIff`). A pass reads all
  rows at its start. For `create_session` the no-dispatch proof does not ask for an uncertain row, so a
  row read while its handler still runs is failed as "never started" even if the handler has
  dispatched, failed and ended meanwhile. It is sound exactly when the row is read with care.
  Interrupts and sends ask for an uncertain row and are sound with their fence
  (`NoDispatch.HandlerIsSoundIff` gives the exact condition for each).
- **A creation with no receipt waits for its endpoint** (`RecoveryDecisions.RetiredIsLocalIff`), although
  retiring it is a local write: its route is decided as if its row had been written under protocol 0.
- **A call of the model can bind a directive to a failed operation** (`ToolDispatch.FailedIsBoundIff` says
  exactly when). It takes a second call of one key that stays between its look and its transaction while
  the first transacts, runs and fails. The only await there is `waitUntilSubmitted`
  (src/assistant/attempt-scope.ts:42-58), which releases calls in the order in which they came, so in one
  process the second transaction sees the consumption and looks again. No schedule of the event loop is
  known that produces the run, and `ToolDispatch.TimelyCallsBindNoFailed` proves that it does not happen
  while calls cross that stretch before an action of theirs can fail. Nothing runs twice either way.
- **Rescheduling a post-turn action conflicts after a checkpoint** (`PostTurnActions.RescheduleIff`),
  unless the last checkpoint wrote the scheduled payload, because the stored payload is compared with it.
- **A pass that throws can drop the requests queued behind it** (`ReconciliationLoop.ThrowLosesIff`):
  exactly when recovery owns no operation and no caller of an earlier run has still to look again.
  `ReconciliationLoop.StrandedIff` says over every run when requests are left unserved, including those
  that come before the run of such a pass has settled, and what serves them again.
- **A repeated terminal can answer with another attempt's recovery** (`AttemptRuntime.RepeatedTerminalIff`),
  because the source looks it up by the members: exactly when another attempt that shares a member has
  been given a recovery since.

## Model

| member | source | states |
|---|---|---|
| ManagedRecovery.ArmedTimerIsCurrent | src/production-app.ts:2453-2468 | in every reachable state an armed timer has the endpoint's epoch and timer generation, and the endpoint is neither unavailable nor stopped |
| ManagedRecovery.RetryIsNeverLost | src/production-app.ts:2230-2528 | in every reachable state a retry-disposition key of an available endpoint has a timer armed or a run of the current epoch queued or in flight |
| ManagedRecovery.KeyLeavesIff | src/production-app.ts:2362-2405 | a key leaves `pending` by `stop`, and otherwise exactly when a run of the current epoch whose lease still holds got it settled, with no failure of it reported, or woken |
| ManagedRecovery.AttemptsAreNeverStale | src/production-app.ts:2320-2396 | `recover` and `wakeShared` are called only for the current epoch, under a current lease, for an available endpoint |
| RecoveryFailures.ThrownBatch | src/production-app.ts:2355-2361 | a batch that throws for a current run under a live lease is retried on a timeout or a lost endpoint and parked on anything else, key by key, and never makes the endpoint unavailable; a stale error changes nothing |
| RecoveryFailures.ThrownWake | src/production-app.ts:2394-2403 | the same of the shared wake, whose keys keep their stage |
| RecoveryFailures.RefusedLease | src/production-app.ts:2415-2430 | a run whose lease is refused files every key it captured by the error and its own stage; a missing endpoint, and nothing else, makes all that is pending wait and disarms the timer |
| RecoveryFailures.ForeignBatch | src/production-app.ts:2363-2368 | an answer that names a key it was not given parks every key it was given |
| RecoveryFailures.AnsweredBatch | src/production-app.ts:2369-2392 | key by key: the last reported failure decides a disposition, a settled key leaves, a restored one goes on to the shared wake, every other stays |
| RecoveryFailures.AnsweredWake | src/production-app.ts:2404-2409 | a shared wake that succeeds drops exactly the keys it was made for |
| RecoveryFailures.RecordedFailure | src/production-app.ts:2492-2503 | a failure recorded from outside: its key, the other keys, the availability and the timer |
| RecoveryFailures.RunTakesItsKeys | src/production-app.ts:2336-2357 | a current run hands over exactly the keys it is given that are not restored yet, and wakes the others if there are none |
| RecoveryFailures.RunWaitsForWake | src/production-app.ts:2333-2336 | a run that begins during an independent shared wake attempts nothing until that wake has ended |
| RecoveryFailures.IndependentWakes | src/production-app.ts:2470-2490 | an independent wake holds its barrier from its beginning to its end; a wake that ends after a newer one began lets nobody go |
| RecoveryFailures.ReturnedRunArms | src/production-app.ts:2431-2432 | a run that returns leaves a timer exactly if one was armed or a retry is left that may be served |
| RecoveryFailures.LossParks | src/production-app.ts:2512-2516 | a lost endpoint begins a new epoch in which everything pending waits and no timer is armed |
| RecoveryFailures.ReadyEnqueues | src/production-app.ts:2504-2511 | a ready endpoint begins a new epoch with a run over everything that is pending |
| RecoveryFailures.StopQuiets | src/production-app.ts:2517-2528 | after `stop` nothing is pending, armed or attempted again, whatever comes |
| RecoveryFailures.ReportMoves | src/production-app.ts:2310-2319 | the endpoint counts as reported from the first key parked for safety until a shared wake succeeds or a run finds nothing to do |
| RecoveryFailures.UnavailableIff | src/production-app.ts:2285-2291 | over every run, an endpoint is unavailable exactly from its announced loss, a failure recorded or reported that waits for it, or a lease refused because it is gone, until the next `endpointReady` |
| ParkedKeys.ParkingQuiets | src/production-app.ts:2292-2319 | a run that parks a key leaves no run of its epoch that will take it |
| ParkedKeys.ParkedKeyWaits | src/production-app.ts:2253-2528 | over whole runs, a key parked by a recovery run is attempted again only after `endpointReady` or a new `recordFailure` of it |
| ParkedKeys.ParkedKeyIsReachedIff | src/production-app.ts:2492-2511 | a parked key, however parked, can be attempted without being woken exactly when its endpoint is available and a run of its epoch was already bound to reach it |
| ParkedKeys.OutsideParkIsAttempted | src/production-app.ts:2492-2511 | the smallest run in which a key parked by `recordFailure` is attempted |
| ManagedRecoveryOwner.EndpointRecoveryOwner.RecordFailureOf | src/production-app.ts:2492-2503 | `recordFailure` in place: its whole new state, to which the run properties apply |
| ManagedRecoveryOwner.EndpointRecoveryOwner.FileFailure | src/production-app.ts:2292-2319 | `applyFailure` in place, with the loop over the keys and the endpoint marked waiting |
| ManagedRecoveryOwner.EndpointRecoveryOwner.ContinueRun | src/production-app.ts:2334-2354 | the run after its barrier: targets are captured, or the run is over because its epoch is |
| ManagedRecoveryOwner.EndpointRecoveryOwner.ReceiveBatch | src/production-app.ts:2355-2392 | the batch answer in place: stale answers change nothing, foreign keys fail the batch, settled keys leave |
| ManagedRecoveryOwner.EndpointRecoveryOwner.ReceiveWake | src/production-app.ts:2394-2409 | the answer of the shared wake in place |
| ManagedRecoveryOwner.EndpointRecoveryOwner.TimeoutElapses | src/production-app.ts:2453-2468 | a timer of another generation or epoch enqueues nothing |
| RecoveryDecisions.RetiredIff | src/production-app.ts:1339-1399 | exactly which rows may be failed as never dispatched, over the five functions that decide it |
| RecoveryDecisions.RetiredIsLocalIff | src/production-app.ts:722-747 | a row that may be retired is routed past its endpoint, except a creation with no receipt |
| RecoveryDecisions.LifecycleTargetIff | src/production-app.ts:772-780 | the lifecycle policy goes to disconnects, and to restarts of an endpoint other than the assistant's, and names their endpoint |
| RecoveryDecisions.ReadyTargetIff | src/production-app.ts:691-769 | exactly which rows are recovered through which ready endpoint, by kind, session table and receipt |
| RecoveryDecisions.LocalIff | src/production-app.ts:691-784 | exactly which rows are settled without any endpoint |
| RecoveryDecisions.SubsumedIff | src/production-app.ts:1234-1242 | which earlier rows a forced restart or disconnect takes with it |
| RecoveryDecisions.InterruptStepIff | src/production-app.ts:1339-1351 | what recovery does with an interrupt: the turn it proves, a repeated stop, a retirement or a wait |
| RecoveryDecisions.ReceiptFixesRoute | src/production-app.ts:702-705 | a row that has named its endpoint is recovered there, whatever arguments and default say later |
| NoDispatch.RetiredIsNeverDispatched | src/production-app.ts:1339-1399 | over every run with crashes, terminalization and a delayed recovery, a retired row has not been dispatched and never is |
| NoDispatch.StateAfter | src/storage/operation-store.ts:254-390 | the state of the row after any step of a handler, a terminalization, a timeout or recovery, and when it is retired |
| NoDispatch.HandlerAfter | src/storage/operation-store.ts:254-281 | what a handler writes and calls: a checkpoint goes through only on a dispatched row under a fence that holds, or without a fence on an uncertain one |
| NoDispatch.SoundIffDisciplined | src/production-app.ts:1339-1399 | for a handler, the recovery proof is sound in all runs exactly when no receipt after a possible native call satisfies it |
| NoDispatch.SoundIff | src/production-app.ts:1339-1399 | for every handler, guarded or not: exactly when the recovery proof is sound over all runs |
| NoDispatch.UnguardedIsUnsound | src/production-app.ts:5855-5860 | without the fence, or for a creation read without care, one receipt that proves "never dispatched" before the call is enough to be retired after being sent |
| NoDispatch.UndisciplinedIsUnsound | src/production-app.ts:1339-1399 | a handler without that order can be retired as never dispatched and yet dispatch |
| NoDispatch.HandlersAreDisciplined | src/production-app.ts:4459-4512 | the handlers of interrupt, start, steer and create write their evidence before their native call |
| NoDispatch.InterruptsAndSendsAreSound | src/production-app.ts:4566-4576 | so for a fenced interrupt, start or steer the proofs are sound over all runs |
| NoDispatch.HandlerIsSoundIff | src/production-app.ts:1339-1399 | for every interrupt, start, steer and creation, fenced or not and under either protocol: exactly when a retired one can be trusted to be never dispatched |
| NoDispatch.CreationFailureIsExact | src/assistant/tools.ts:270-298 | a creation past its first checkpoint is recorded as without effect exactly when its dispatch checkpoint is not written, and then it made no call |
| NoDispatch.LifecycleFailureIsExact | src/endpoints/manager.ts:300-320 | a restart or disconnect that fails is recorded as without effect exactly when the error is a refusal or nothing was written, and then nothing was stopped |
| NoDispatch.SteerIsSoundIff | src/storage/operation-store.ts:258-270 | a steer is retired soundly exactly when it carries a fence, or its row is of protocol 0 and is never retired |
| NoDispatch.CreationIsSoundIff | src/production-app.ts:5569-5583 | a creation is retired soundly exactly when its row is not read while its handler may still send |
| LifecycleFence.Ledger.SettleEarlier | src/production-app.ts:955-1111 | only earlier, uncertain, subsumed rows of the endpoint are retired; a forced call never waits or refuses; an unforced return leaves no earlier row in flight and no lifecycle row; every wait was for an uncertain oldest row on a ready endpoint, an oldest earlier row that is not uncertain is a conflict, and satisfied and each refusal hold of the rows last read |
| LifecycleFence.Ledger.AwaitEarlier | src/production-app.ts:1024-1104 | the waiting loop ends, on the count of earlier operations that are not settled, with the list empty, a justified refusal, or the endpoint released |
| LifecycleFence.LookIsDecided | src/production-app.ts:1027-1083 | what one look at the rows decides, from the rows, `ready` and `awaiting` alone: an oldest earlier row that is not uncertain is a conflict, and a wait needs a ready endpoint and an uncertain oldest row |
| LifecycleFence.StandsInTheWay | src/production-app.ts:697-780 | an unsettled send, interrupt or goal of a session on the endpoint that may not be retired stands in the way of a restart or disconnect |
| LifecycleFence.Ledger.RetireForced | src/production-app.ts:986-1022 | the forced branch fails only uncertain rows that this action subsumes, whatever a peer does meanwhile |
| LifecycleFence.ReleaseIsSafe | src/production-app.ts:1032-1083 | a release finds only uncertain rows and retires exactly the lifecycle rows among them |
| LifecycleFence.RetiredIsLifecycle | src/production-app.ts:986-1022 | whatever the fence retires is an earlier, uncertain disconnect or restart of this very endpoint: a disconnect retires no restart, and nothing retires a send |
| LifecycleFence.NeverInTheWay | src/production-app.ts:713-780 | an endpoint recovery, the assistant's own restart, compaction and attachments, and an undispatched interrupt or send never hold up a restart or disconnect |
| LifecycleFence.SettlingLowersOpen | src/production-app.ts:1085-1100 | however the ledger grows, an earlier row that settles lowers the count the loop ends on |
| LifecycleFence.ClearedLedger | src/production-app.ts:1027-1083 | so after an unforced return every row that was read as earlier is settled, or is still uncertain and no lifecycle action, whoever else has written since; `SettleEarlier` promises it of its final rows |
| RecoveryChains.OrderIgnoresInput | src/production-app.ts:650-651 | the order of attempts is the same for every listing of the same rows |
| RecoveryChains.RunChains | src/production-app.ts:643-677 | a row is attempted exactly when no earlier attempted row of its endpoint stayed unsettled and, unless it is a lifecycle row, none was parked; the result is the endpoints so held |
| RecoveryChains.LifecyclePassesParked | src/production-app.ts:652-669 | parked rows in front never hold back a lifecycle row |
| RecoveryChains.HeldBack | src/production-app.ts:652-669 | an attempted older row that is still unsettled holds back every later row of its endpoint, and one that waits holds back those that need the endpoint |
| RecoveryChains.GivenUpExactlyWhenDue | src/production-app.ts:1133-1228 | a row is given up exactly if some pass found it an uncertain lifecycle row whose counted failures and elapsed time both reach the budget |
| RecoveryChains.GivenUpAt | src/production-app.ts:1190-1228 | and at the first such pass, not before it |
| RecoveryChains.NeverEarly | src/production-app.ts:1121-1146 | below the failures, or before the time, of the budget nothing is given up |
| RecoveryChains.ColumnsHoldStreak | src/storage/operation-store.ts:287-307 | the two columns always hold the number of counted passes and the time of the first one |
| RecoveryChains.RecoveryRow.SettleVerdict | src/production-app.ts:1159-1228 | the verdict in place, with lost writes of the count and of the failure |
| RecoveryChains.AnswerIsOpen | src/production-app.ts:1159-1228 | a pass answers that the row is unsettled exactly if it leaves it dispatched or uncertain; what it finds settled has its columns cleared |
| ReconciliationLoop.PassesNeverOverlap | src/production-app.ts:1551-1594 | in every run at most one pass is under way |
| ReconciliationLoop.NoRequestIsLost | src/production-app.ts:1551-1594 | in particular none is lost while passes throw only with an operation owned: an unserved request then has something that will begin a pass |
| ReconciliationLoop.OwedPassComes | src/production-app.ts:1551-1594 | a loop that owes a pass and has lost nothing has a step of its own, and each of them begins the pass or brings it nearer |
| ReconciliationLoop.StrandedIff | src/production-app.ts:1551-1594 | over every run, requests are left unserved exactly from a step that loses them until one that begins a pass or stops the loop |
| ReconciliationLoop.ThrowLosesIff | src/production-app.ts:1555-1564 | a pass that throws and settles drops the requests queued behind it exactly when recovery owns nothing and no caller of an earlier run has still to look again |
| ReconciliationLoop.ThrowDropsQueued | src/production-app.ts:1555-1564 | the shortest run that loses a request |
| ReconciliationLoop.EndOfPass | src/production-app.ts:1565-1575 | a pass with nothing requested behind it leaves a retry timer exactly when it asks for one; otherwise the next pass begins at once |
| ReconciliationLoop.TimerAfter | src/production-app.ts:1523-1594 | when the retry timer is armed, kept and cleared, over every event, a lost endpoint included |
| ReconciliationLoop.RetryAttemptAfter | src/production-app.ts:1530-1547 | the exponent of the retry delay counts the timers armed since a last pass wanted none |
| ReconciliationLoop.Reconciler.FinishPass | src/production-app.ts:1565-1575 | the end of a pass in place: go round again, or settle the timer |
| ReconciliationLoop.Reconciler.RequestPass | src/production-app.ts:1578-1594 | `request` in place |
| TerminalWaiters.WaiterSettlesOnce | src/production-app.ts:1498-1650 | in every run a waiter is settled at most once, and until then it is attached to an owned operation of a loop that is not stopped |
| TerminalWaiters.AllSettledAfterStop | src/production-app.ts:1627-1650 | after `stop` every promise given before or later is settled, once |
| TerminalWaiters.PassSettlesTerminal | src/production-app.ts:1508-1521 | a pass settles a waiter exactly when its operation is over, by resolving it |
| TerminalWaiters.ResolvedWaitIsOver | src/production-app.ts:1598-1626 | over every run, the promise of a wait is resolved only once its operation has succeeded or failed; every other end is a rejection |
| TerminalWaiters.ResolvedAfter | src/production-app.ts:1508-1521 | step by step: which promises a call or a pass resolves |
| TerminalWaiters.HandOverAnswers | src/production-app.ts:1598-1604 | what a call gives its caller at once |
| TerminalWaiters.OwnedAfter | src/production-app.ts:1605-1627 | what recovery owns: from the first wait until the operation is over or the loop stops, whoever has gone away |
| TerminalWaiters.WaiterTable.SettleTerminalWaiters | src/production-app.ts:1508-1521 | the loop over the owned operations drops exactly those that are over |
| TerminalWaiters.WaiterTable.WaitForTerminal | src/production-app.ts:1598-1626 | `waitForTerminal` in place; a pass is requested exactly for a newly owned operation |
| ReadyBuffer.ReadyIsNotLost | src/production-app.ts:496-585 | a ready event that was taken stays pending or scheduled until a recovery begins after it, it is acknowledged, or the buffer stops |
| ReadyBuffer.OneRecoveryPerEndpoint | src/production-app.ts:509-538 | an endpoint never has two recoveries at once |
| ReadyBuffer.ScheduledBegins | src/production-app.ts:516-537 | a scheduled recovery begins at its task's next step, or the endpoint is left pending |
| ReadyBuffer.EndOfRecovery | src/production-app.ts:524-536 | a recovery with a ready event behind it begins again; otherwise it is over and its endpoint pending again exactly if it failed or such an event is unserved |
| ReadyBuffer.PendingAfter | src/production-app.ts:539-583 | which endpoints are pending after any event, and whether the buffer accepts |
| ReadyBuffer.DrainSchedules | src/production-app.ts:561-573 | a drain leaves a recovery scheduled for every endpoint that was pending |
| ReadyBuffer.DrainsAreAnswered | src/production-app.ts:561-577 | a drain awaits one recovery of every endpoint it takes, and each drain that awaits one is rejected exactly if it failed |
| ReadyBuffer.StoppedTaskEnds | src/production-app.ts:517-521 | a task that the stop overtakes ends with its next step |
| ReadyBuffer.NothingAfterStop | src/production-app.ts:578-583 | after `stop` nothing is pending and no recovery begins |
| ReadyBuffer.PendingIsBounded | src/production-app.ts:541-553 | until it first accepts, the buffer holds at most its bound and recovers nothing |
| ReadyBuffer.EndpointReadyBuffer.EndpointReady | src/production-app.ts:541-553 | `ready` in place, refusing exactly a new endpoint over the bound while not accepting |
| ReadyBuffer.EndpointReadyBuffer.AcceptAndDrain | src/production-app.ts:561-577 | the drain loop in place |
| TurnCapacity.BoundClaimNeverChangesTurn | src/app-server/pool.ts:169-195 | over any run a generation names one claim for good, and a bound claim never changes its turn |
| TurnCapacity.GenerationsIncrease | src/app-server/pool.ts:296-305 | a new claim's generation is above every one issued before |
| TurnCapacity.ClaimingAgain | src/app-server/pool.ts:287-306 | claiming again under one id gives the same claim, or refuses another thread; the pool is unchanged |
| TurnCapacity.EndpointLossDropsItsClaims | src/app-server/pool.ts:287-292 | a lost endpoint takes exactly its own claims and recorded turns with it |
| TurnCapacity.BindConflictIff | src/app-server/pool.ts:169-180 | binding is a conflict exactly for a claim bound to another turn, or not in the table and not on record as ended with this turn |
| TurnCapacity.BindOfProvisional | src/app-server/pool.ts:181-189 | binding a provisional claim makes it active in its place, or releases it if the end of its turn came first |
| TurnCapacity.ReleaseConflictIff | src/app-server/pool.ts:191-198 | releasing is a conflict exactly if the id names another claim; otherwise that claim alone is gone |
| TurnCapacity.ClaimConflictIff | src/app-server/pool.ts:296-306 | claiming is a conflict exactly if the id is taken for another endpoint or thread |
| TurnCapacity.EndedTurnReleases | src/app-server/pool.ts:271-285 | the end of a turn takes exactly the claims active with it; with none it is recorded as early |
| TurnCapacity.ImplicitClaimNeverOutlivesStart | src/app-server/pool.ts:211-249 | once an implicit start has come back, on any path, its claim is never in the table again |
| TurnCapacity.ImplicitStartLeaves | src/app-server/pool.ts:211-249 | however an implicit start comes back its claim is gone and no other has moved; a turn that had ended before is remembered for the claim |
| TurnCapacity.BindAndEndCommuteIff | src/app-server/pool.ts:169-189 | binding and ending a turn commute exactly when no active claim holds it, its end is not recorded, and recording it evicts nothing |
| TurnCapacity.BindThenEndResult | src/app-server/pool.ts:271-285 | and the common result is the claim released and remembered |
| AppServerPool.Pool.BindTurnCapacityClaim | src/app-server/pool.ts:169-189 | in place, conflicts included |
| AppServerPool.Pool.EndTurn | src/app-server/pool.ts:271-285 | in place: the loop over the holders ends them all |
| AppServerPool.Pool.DropEndpoint | src/app-server/pool.ts:287-292 | in place: an endpoint's claims and recorded turns go, the others stay in order |
| AppServerPool.Pool.SettleImplicitStart | src/app-server/pool.ts:226-248 | both catch blocks of an implicit start in place |
| AppServerPool.Pool.ObserveLoss | src/app-server/pool.ts:347-361 | the loss listener of a replaced endpoint releases nothing |
| Dispatcher.StartSettlesIff | src/assistant/conversation-dispatcher.ts:136-234 | for one start, any order of its response, the pool's binding, started and terminal notifications and the closing of its row ends with no current attempt, no claim and one `onTerminal`, exactly unless the order is the leaking one |
| Dispatcher.EventMovesShape | src/assistant/conversation-dispatcher.ts:388-467 | what each event does to a start that is waiting, open, closed or leaked, whatever else the dispatcher holds |
| Dispatcher.ShapeIsExplained | src/assistant/conversation-dispatcher.ts:136-467 | which orders of events lead to which of these |
| Dispatcher.LaunchedStartWaits | src/assistant/conversation-dispatcher.ts:346-375 | a start that `pump` launches begins in the waiting shape |
| Dispatcher.LeakingOrder | src/assistant/conversation-dispatcher.ts:443-455 | the order that leaks the claim, from a launched start |
| Dispatcher.ConcludeCloses | src/assistant/conversation-dispatcher.ts:957-962 | ending a turn that only the start's claim holds leaves no claim and publishes once |
| NativeSide.AnnouncedTurnFrees | src/assistant/conversation-dispatcher.ts:136-234 | in any state, a handler that announces the end of a turn leaves no current attempt, the native side free and no steering pause |
| NativeSide.TerminalOfCurrent | src/assistant/conversation-dispatcher.ts:173-192 | the terminal notification of the current attempt's turn does so whatever else is going on |
| NativeSide.StartedIsBusy | src/assistant/conversation-dispatcher.ts:136-171 | a started notification makes the native side busy unless the turn was already over |
| NativeSide.BoundTurnStays | src/assistant/conversation-dispatcher.ts:136-234 | no handler exchanges the turn that a row is bound to, or opens a row to tools again |
| NativeSide.OtherTurnConflicts | src/assistant/conversation-dispatcher.ts:419-435 | an answer for an attempt bound to another turn pauses the pump and leaves the rest alone |
| NativeSide.OtherClaimConflicts | src/assistant/conversation-dispatcher.ts:416-429 | so does an answer whose claim is active with another turn, unless the attempt is bound to the answered turn already |
| NativeSide.EventMovesNativeSide | src/assistant/conversation-dispatcher.ts:388-467 | for one start: the event that ends its turn frees the native side, and which later events make it busy or free it |
| NativeSide.EventMovesPump | src/assistant/conversation-dispatcher.ts:136-234 | for one start: a terminal notification lets the pump go on, and only a conflicting late answer pauses it |
| NativeSide.FreeOnceEnded | src/assistant/conversation-dispatcher.ts:136-467 | over every order of events: once the turn has ended the native side is free exactly unless a started notification came later and nothing has freed it since |
| ConversationDispatcher.ConversationDispatcher.OnStarted | src/assistant/conversation-dispatcher.ts:136-171 | `started` in place |
| ConversationDispatcher.ConversationDispatcher.OnTerminal | src/assistant/conversation-dispatcher.ts:173-234 | `terminal` in place |
| ConversationDispatcher.ConversationDispatcher.OnStartResponse | src/assistant/conversation-dispatcher.ts:404-458 | the response handler in place |
| ConversationDispatcher.ConversationDispatcher.ConfirmNotifiedStart | src/assistant/conversation-dispatcher.ts:909-922 | `confirmNotifiedStart` in place, over the pool's table and the attempt rows |
| SubmissionGate.OneNativeSubmission | src/assistant/conversation-dispatcher.ts:786-818 | in every run at most one native submission is in flight, the counters agree, and "already in flight" is never thrown |
| SubmissionGate.LaunchedOnlyWhenFree | src/assistant/conversation-dispatcher.ts:324-399 | a step that launches a start finds an empty network, no current attempt and the native side free; one that launches a steer finds its bound attempt current |
| SubmissionGate.FreePumpSubmits | src/assistant/conversation-dispatcher.ts:324-386 | the other direction: a pump that finds the network empty starts the candidate it can admit and reserve, or steers its attempt, and does nothing else |
| SubmissionGate.RefusedPumpIsRepeated | src/assistant/conversation-dispatcher.ts:786-800 | a pump refused because of traffic is followed by another |
| SubmissionGate.AttemptCountIsExact | src/assistant/conversation-dispatcher.ts:802-833 | the per-attempt count is present exactly while a submission of the attempt is in flight |
| AdmissionGate.AdmissionStages | src/assistant/conversation-dispatcher.ts:335-347 | in every run at most one admission probe is awaited, exactly while the flag says so; probe, grant and retry timer never stand side by side |
| AdmissionGate.UnadmittedPumpAsks | src/assistant/conversation-dispatcher.ts:335-347 | a candidate without admission is never left without a wake-up: the pump asks once, unless the timer will |
| AdmissionGate.StartsAreAdmitted | src/assistant/conversation-dispatcher.ts:335-351 | over every run in which starts need admission, no more starts are launched than probes were granted |
| SubmissionTraffic.Traffic.PumpNow | src/assistant/conversation-dispatcher.ts:324-386 | `pump` in place |
| SubmissionTraffic.Traffic.SettleFlight | src/assistant/conversation-dispatcher.ts:786-800 | a posted handler in place |
| SubmissionTraffic.Traffic.FinallyFlight | src/assistant/conversation-dispatcher.ts:792-818 | the `finally` of a flight in place |
| SchedulerQueue.TraceIsValid | src/assistant/scheduler.ts:71-124 | over any run the id set is exact, a session has one transient event at most, accepted = committed + pending + superseded, and queued work has a pump or a timer |
| SchedulerQueue.BatchIsLongestPrefix | src/assistant/scheduler.ts:203-234 | a batch is the longest prefix within both bounds, never empty when it may hold an event |
| SchedulerQueue.WakeIsLeastEligible | src/assistant/scheduler.ts:95-124 | the wake-up time is the least time a batch is eligible, unless completed periods already force one |
| SchedulerQueue.PlacesAreKept | src/assistant/scheduler.ts:71-91 | coalescing keeps an event's place and queue time |
| SchedulerQueue.NewEventIsQueued | src/assistant/scheduler.ts:71-91 | a new event is queued, in the place and with the queue time of the status it supersedes or at the end; every other event keeps its place |
| SchedulerQueue.NewestStatusStands | src/assistant/scheduler.ts:71-91 | over every run, the last accepted status of a session stands in the queue until a batch takes it |
| SchedulerQueue.BoundedWaiting | src/assistant/scheduler.ts:137-181 | an event at index i waits for at most 5(i+1) more user jobs and i other batches, however many users come |
| SchedulerQueue.UsersServedInOrder | src/assistant/scheduler.ts:69-164 | over every run, users get their jobs in the order in which they came, none lost and none twice |
| SchedulerQueue.PumpNeverIdles | src/assistant/scheduler.ts:137-164 | while users wait every turn of the pump runs a job |
| SchedulerQueue.UsersFollowBatch | src/assistant/scheduler.ts:137-181 | after a batch the waiting users get their turn exactly unless the oldest event left has reached the age limit |
| SchedulerQueue.BatchBeforeUser | src/assistant/scheduler.ts:137-181 | over every run, a batch below the age limit goes before a waiting user exactly after five users in a row |
| SchedulerQueue.IdlePumpEnds | src/assistant/scheduler.ts:150-164 | a pump with nothing to do ends, with no timer if the queue is empty and the window timer armed otherwise |
| SchedulerQueue.PumpSetGoing | src/assistant/scheduler.ts:69-91 | what sets the pump going |
| SchedulerQueue.EventAfterUsers | src/assistant/scheduler.ts:84-90 | an event that comes after five users in a row is served at once; one that comes before waits for its window |
| SchedulerQueue.PumpAgreesWithPeek | src/assistant/scheduler.ts:95-124 | pump and peek agree on when a batch is due |
| SchedulerQueue.BatchRearms | src/assistant/scheduler.ts:137-219 | after a batch the window timer is armed exactly if events are left |
| SchedulerQueue.CommitIsAllOrNothing | src/assistant/scheduler.ts:110-117 | a commit takes exactly the peeked prefix and restarts the count of periods, or changes nothing |
| AssistantScheduler.AssistantScheduler.AddEvent | src/assistant/scheduler.ts:71-91 | `enqueueEvent` in place |
| AssistantScheduler.AssistantScheduler.PeekEventJobs | src/assistant/scheduler.ts:221-234 | the peeking loop reads exactly the batch prefix |
| AssistantScheduler.AssistantScheduler.TakeEventBatch | src/assistant/scheduler.ts:203-219 | the taking loop takes exactly what peeking shows |
| AssistantScheduler.AssistantScheduler.CommitEventBatch | src/assistant/scheduler.ts:110-117 | removes exactly the peeked prefix or changes nothing |
| AssistantScheduler.AssistantScheduler.PumpOnce | src/assistant/scheduler.ts:137-164 | one turn of the pump in place |
| ThreadHistory.ThreadHistoryReader.WalkTurns | src/app-server/thread-history.ts:263-293 | any server: no turn twice, at most one page over the budget; an honest one: the plain list up to the sought turn unless the budget runs out |
| ThreadHistory.ThreadHistoryReader.FindTurn | src/app-server/thread-history.ts:139-152 | equals the search of the plain list or raises because the budget is spent |
| ThreadHistory.ThreadHistoryReader.DescendingSuffix | src/app-server/thread-history.ts:154-179 | equals the list down to the anchor, or raises because the budget is spent; whether the list was read to its end is said exactly by the last page, which holds the anchor if it was found |
| ThreadHistory.ThreadHistoryReader.DescendingFrom | src/app-server/thread-history.ts:181-204 | equals the list down to and including the turn, or raises because the budget is spent; whether the list was read to its end is said exactly by the last page |
| ThreadHistory.ThreadHistoryReader.LatestTurn | src/app-server/thread-history.ts:109-123 | "none" only for an empty history; raises only after eight empty windows |
| ThreadHistory.ThreadHistoryReader.ExactFullTurn | src/app-server/thread-history.ts:215-261 | the requested turn in full or an error; against a server whose windows do not move it is the turn exactly if the list has it, unless the budget is spent |
| ThreadHistory.HistoryScanBudget.ConsumeTurns | src/app-server/thread-history.ts:69-81 | counts a page before comparing it with the limits |
| ThreadHistory.FullPagesAreHonest | src/app-server/thread-history.ts:125-137 | there are honest servers whose windows do not move, for every list |
| ToolDispatch.ActionRunsAtMostOnce | src/assistant/tools.ts:178-234 | over replays, concurrent duplicates, crashes and recovery, the action of one (attempt, call, tool) starts at most once |
| ToolDispatch.DirectiveHasOneOperation | src/assistant/attempt-scope.ts:77-126 | a source's directive has at most one operation that has not failed |
| ToolDispatch.ProvenFailureFreesDirective | src/assistant/tools.ts:214-231 | a failure proven to be without effect gives back its own directive only, which can then be bound again; any other keeps it |
| CallOutcomes.RowAfter | src/assistant/tools.ts:178-234 | a row after any step: an action starts on a prepared row under a fence that holds, its answer is written only under such a fence, and what else moves a row |
| CallOutcomes.CallAfterTransaction | src/assistant/attempt-scope.ts:102-121 | the transaction of a call: it looks again, is refused, or has the one row of its key |
| CallOutcomes.DirectiveAfter | src/assistant/attempt-scope.ts:77-126 | a directive is given back exactly when its row is proven to have had no effect, and bound by nothing but a transaction |
| CallOutcomes.NothingStartsAfterClose | src/storage/operation-store.ts:254-270 | over every run, once an attempt is terminalized no row is prepared for it and none of its actions starts |
| DirectiveSelection.SelectSource | src/assistant/attempt-scope.ts:165-187 | the loop over the sources decides by the first directive that is not consumed |
| DirectiveSelection.SelectedIs | src/assistant/attempt-scope.ts:165-187 | what a call is resolved to, from the sources alone, over all six outcomes |
| DirectiveSelection.ServedInOrder | src/assistant/attempt-scope.ts:77-126 | a row of calls is given directives throughout exactly when it follows the order of the sources, each once and in that order |
| ToolDispatch.FailedIsBoundIff | src/assistant/attempt-scope.ts:102-121 | over every run, a directive is bound to a failed operation exactly if some call's transaction came upon its own row failed |
| ToolDispatch.BindsFailedIff | src/assistant/attempt-scope.ts:102-121 | step by step: only such a transaction makes a consumption name a failed row |
| ToolDispatch.TimelyCallsBindNoFailed | src/assistant/attempt-scope.ts:87-121 | it never happens while no row fails behind the back of a call of its key that has looked and not yet transacted |
| ToolDispatch.FailedRowCanBeBound | src/assistant/attempt-scope.ts:102-121 | the shortest run of the model in which it happens |
| ToolDispatch.OperationStore.PrepareAndBind | src/assistant/attempt-scope.ts:102-121 | the safeguard transaction in place |
| ToolDispatch.OperationStore.FailCall | src/assistant/tools.ts:214-231 | the catch block in place: uncertain, or failed and unbound |
| PostTurnActions.AssistantPostTurnActions.DrainOnce | src/assistant/post-turn-actions.ts:66-108 | every open row is handled once, the others are left, what is scheduled meanwhile stays pending, and the counters say how the handled rows stand |
| PostTurnActions.OverIsAbsorbing | src/assistant/post-turn-actions.ts:66-114 | completed and failed rows never change again |
| PostTurnActions.DrainedIs | src/assistant/post-turn-actions.ts:66-108 | one row of a drain, by its fields: over, without a handler, or ended as the handler ended |
| PostTurnActions.FirstRequestCounts | src/assistant/post-turn-actions.ts:33-45 | of several requests for one new action the first decides its row |
| PostTurnActions.RescheduleIff | src/assistant/post-turn-actions.ts:33-45 | after any drains, retries and crashes, scheduling again is idempotent exactly while no checkpoint has taken effect or the last one that did is the scheduled payload |
| AssistantCompaction.CompactsAtMostOnce | src/assistant/self-controls.ts:40-88 | over any drains, retries and crashes the native compact is called at most once, and completion needs an item after the baseline |
| AssistantCompaction.CallFollowsIdleRead | src/assistant/self-controls.ts:54-76 | the native compact is called only by a drain that has just read the thread idle, and no item there at that time counts as evidence |
| AssistantCompaction.CallsIff | src/assistant/self-controls.ts:54-76 | when the native compact is called: without a phase, on an idle thread, with no item after a scheduled baseline |
| AssistantCompaction.StateAfter | src/assistant/self-controls.ts:40-88 | how a handler ends: completed with an item after the baseline, failed by a fatal error, pending otherwise |
| AssistantCompaction.CheckpointsInOrder | src/assistant/self-controls.ts:74-79 | the stored plan changes only with the call and with its return |
| AssistantCompaction.VerdictIsFinal | src/assistant/self-controls.ts:40-88 | a completed or failed compaction never changes or calls again |
| AssistantCompaction.LaterDrainOnlyLooks | src/assistant/self-controls.ts:60-72 | after a dispatch a drain only looks for evidence |
| AssistantRestart.RestartsOnlyScheduled | src/assistant/self-controls.ts:90-124 | only the scheduled identity is handed to be shut down; completion needs another identity |
| AssistantRestart.CompletedOnLiveReplacement | src/assistant/self-controls.ts:90-124 | the completing step finds that other identity live, after starting it if a replacement was begun |
| AssistantRestart.RestartAfter | src/assistant/self-controls.ts:90-124 | exactly which steps shut a runtime down, start a replacement, complete or fail the action |
| AssistantRestart.ReplacesOnlyScheduled | src/assistant/self-controls.ts:112-119 | an identity is handed over only while it is live, and a replacement starts only after that or with the scheduled identity gone |
| AssistantRestart.ScheduledIsShutDownAgain | src/assistant/self-controls.ts:112-116 | a drain that reads the scheduled identity shuts it down, even in the middle of a replacement |
| AssistantRestart.VerdictIsFinal | src/assistant/self-controls.ts:90-124 | nothing about an action that is over changes |
| AttemptRuntime.RetriesAreBounded | src/assistant/runtime.ts:226-266 | a source is given back at most max - 1 times and gets at most one warning, with which it is over |
| AttemptRuntime.EffectFreeFailure | src/assistant/runtime.ts:236-266 | a member of an effect-free failure is pending again exactly below max failed turns, and otherwise completed with the warning |
| AttemptRuntime.EffectfulFailureIsFinal | src/assistant/runtime.ts:268-288 | a member of an attempt that may have had an effect is superseded for good, by that attempt's one recovery context |
| AttemptRuntime.FailedTurn | src/assistant/runtime.ts:226-288 | a failed turn gives its members back, or completes them with the warning, exactly if no side-effecting operation of it is dispatched, uncertain or succeeded, and supersedes them otherwise |
| AttemptRuntime.CompletedTurn | src/assistant/runtime.ts:206-224 | a turn that ends well completes its members and nothing else |
| AttemptRuntime.GivenBackIff | src/assistant/runtime.ts:226-288 | the same over every run |
| AttemptRuntime.RepeatedTerminalIff | src/assistant/runtime.ts:181-199 | a terminal that comes again, however late, changes nothing; it answers as before exactly while no other attempt that shares a member has been given a recovery, and then with such a recovery |
| AttemptRuntime.RepeatedTerminal | src/assistant/runtime.ts:316-325 | one that is repeated at once answers the same |
| AttemptRuntime.AssistantRuntime.HandleTerminal | src/assistant/runtime.ts:181-288 | `handleTerminal` in place |
| ManagedEndpoint.ReadyIsLive | src/app-server/managed-endpoint.ts:79-121 | ready means a live connection, client and identity of the newest generation |
| ManagedEndpoint.OnlyNewestBecomesReady | src/app-server/managed-endpoint.ts:79-121 | only the start of the newest generation makes the endpoint ready |
| ManagedEndpoint.StateAfter | src/app-server/managed-endpoint.ts:79-184 | the state after any step: a start speaks for the endpoint only while it is the newest, the endpoint is starting and its own connection is current |
| ManagedEndpoint.OvertakenStartEnds | src/app-server/managed-endpoint.ts:79-121 | a start that was overtaken ends without touching the endpoint, and closes the connection it still opens |
| ManagedEndpoint.ClosedStaysStopped | src/app-server/managed-endpoint.ts:123-140 | over every run, from a close until the next start the endpoint is stopped with every connection closed |
| ManagedEndpoint.NoConnectionLeaks | src/app-server/managed-endpoint.ts:186-207 | every opened connection is the current one or has been closed |
| ManagedEndpoint.AnnouncedOnce | src/app-server/managed-endpoint.ts:173-184 | "unavailable" is announced at most once for a generation |
| ManagedEndpoint.AnnouncedIff | src/app-server/managed-endpoint.ts:173-184 | a loss is announced exactly when its classification finds the endpoint still unavailable in the generation that was lost |
| ManagedEndpoint.StartingIsUnderWay | src/app-server/managed-endpoint.ts:79-121 | a starting endpoint always has its newest start under way |
| ManagedEndpoint.UndisturbedStartBecomesReady | src/app-server/managed-endpoint.ts:79-121 | a start that nothing disturbs makes the endpoint ready on the connection it opened |
| ManagedEndpoint.LossIsAnnounced | src/app-server/managed-endpoint.ts:173-184 | the loss of a ready connection closes it and is announced when nothing else happens first; an older one changes nothing |
| ManagedEndpoint.GenerationsCount | src/app-server/managed-endpoint.ts:79-140 | only a start that is not ready and a close begin a generation |
| ManagedEndpoint.ManagedAppServerEndpoint.ContinueOpened | src/app-server/managed-endpoint.ts:86-92 | the stretch after `open` in place |
| ManagedEndpoint.ManagedAppServerEndpoint.LoseConnection | src/app-server/managed-endpoint.ts:173-176 | `connectionLost` up to its await in place |
| JsonlFraming.FramesAreSplitLines | scripts/ssh-worker-support.ts:1603-1635 | the frames of a stream are its parts between line feeds, without a trailing carriage return, up to the first that is too long |
| JsonlFraming.TooLargeIff | scripts/ssh-worker-support.ts:1611-1622 | "too large" comes exactly when a line or the tail is over the limit |
| JsonlFraming.WrittenLinesAreRead | scripts/ssh-worker-support.ts:1603-1635 | lines written with LF or CRLF are read back, other carriage returns included |
| JsonlFraming.SplitThenJoin | scripts/ssh-worker-support.ts:1611-1618 | no byte but the line feeds is lost by the splitting |
| JsonlFraming.ChunksInOrder | scripts/ssh-worker-support.ts:1603-1635 | the bytes of a stream are those of its chunks, in order |
| JsonlFraming.BoundedJsonlReader.NextLine | scripts/ssh-worker-support.ts:1611-1635 | the next frame depends only on the bytes that remain, not on the chunks |
| JsonlFraming.SameBytesSameFrames | scripts/ssh-worker-support.ts:1603-1635 | two ways of cutting the same bytes give the same frames |

## Left out

- ManagedRecovery.RetryIsNeverLost: one endpoint's lane; the results of `endpointReady`, the text and the callbacks of error and safety reports and `stop`'s own waiting are not modelled, and an independent wake only holds its barrier.
- Dispatcher.StartSettlesIff: one start at a time, without `recover`, and without `pumpPaused`, which a late response to a superseded attempt sets; membership and operational observers are not modelled.
- ConversationDispatcher.ConversationDispatcher.OnStarted: the pump at its end, which `SubmissionTraffic` models, and the bookkeeping of `recover`.
- ConversationDispatcher.ConversationDispatcher.OnTerminal: the same.
- ConversationDispatcher.ConversationDispatcher.OnStartResponse: the same, and the two generation guards, which bear on a start that `recover` relaunched or that `nativeUnavailable` overtook.
- SubmissionGate.OneNativeSubmission: what reconciliation, notifications and steering write to the current attempt is arbitrary, so their own correctness is not claimed.
- NoDispatch.RetiredIsNeverDispatched: recovery other than the retirement may settle the row either way; for a creation it holds only when the row is read with care.
- LifecycleFence.Ledger.SettleEarlier: rows stand in sequence order, so its sort is the identity; rows are never deleted.
- RecoveryChains.GivenUpExactlyWhenDue: the passes are those that attempt the row; a row that another instance settles is not listed again.
- ReconciliationLoop.NoRequestIsLost: about passes, not about when a caller's promise resolves; the growing retry delays are left out; timers do not fire among the callbacks that settle a run.
- ReadyBuffer.EndpointReadyBuffer.AcceptAndDrain: the sorted list of pending endpoints is given.
- ThreadHistory.ThreadHistoryReader.ExactFullTurn: an honest server whose windows move between the requests may still make it raise.
- ToolDispatch.ActionRunsAtMostOnce: the directive grammar, arguments and effect classes are not modelled; which source a call is resolved to is arbitrary here and modelled by `DirectiveSelection` on one view of the table.
- PostTurnActions.AssistantPostTurnActions.DrainOnce: the promise that concurrent drains share.
- AttemptRuntime.AssistantRuntime.HandleTerminal: `ok` stands for a completed turn that is not a chat turn without its final response; of several superseded members the first one answers, where the query names no order.
- AttemptRuntime.RetriesAreBounded: members are the submitted ones, each observed in the attempt's turn; event batches, attachments and the final delivery are not modelled.
- JsonlFraming.BoundedJsonlReader.NextLine: UTF-8 decoding of a line.
- `recover`, `nativeUnavailable`, steering recovery and thread reconciliation of the dispatcher.
- `recoverableOperationTarget`'s removal branch takes the registry's verdict as given.
- Composition in `buildProductionApp`, adapters, SSH, web UI, deliveries, SQL text and JSON encoding.
- `SessionObservationProcessor`, `RpcClient`, `TerminalInbox` and `AssistantLifecycleBuffer`, which repeat the patterns above in simpler form.
- The SSH fixture lease, which is not a strict mutual exclusion in the source.
