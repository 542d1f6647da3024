# Hookfly delivery engine: a verified model

Hookfly accepts webhooks, routes them to deployment targets, sends one request per delivery and watches the
resulting deployment until it ends. It survives crashes at any point, and its configuration can be reloaded while
it runs. This project models that engine in Dafny and proves what its design relies on.

`dafny verify dfyconfig.toml` checks the whole project.

## How the model is organised

*The engine as a state machine.* `Tables` holds the durable rows and the constraints of the schema, `Correlation`
the lookups in Dokploy's deployment history, `Polling`, `Manual`, `Reload` and `Intake` the decisions, and
`Protocol` the whole system: 27 actions of the webhook handler, dispatcher, poller, drainer, manual operations,
reload manager, retention, process start-up, crashes and the remote side. Every action is one transaction, one
remote exchange or one section under the reload gate; actions of different workers interleave freely and a crash
may fall between any two. `Invariant` states the inductive invariant; `RowSteps`, `PollSteps`, `BootSteps`,
`ManualSteps` and `IntakeSteps` show that every action keeps it; `Exactness` and `ExactBinding` do the same for
the correlation invariant and `Evolution` for what an action may do to existing rows. `Theorems`,
`ReloadTheorems` and `PollTheorems` hold the results about whole runs, `Paths` is about sequences of steps and what
starts on an empty database, and `Reachability`, `TwoWays`, `Doubling` and `Reactivation` hold the results that
exhibit runs, each with the exact condition of what it exhibits.

*The code that carries it out.* `Store.dfy` (module `StoreTransactions`) has the transactions of the store
statement by statement, as methods of a class whose contracts are the database changes the protocol is made of; a
guarded UPDATE whose guard is asserted there can never report zero rows. `Columns` says what queries select and
statements leave column by column, without the functions they are computed by; transactions and passes promise
both. `Manager.dfy` (module `ReloadManager`) is the reload manager's object, and `Workers` has one uninterrupted
pass of each worker, the manual operation and the start-up sequence; a pass of the dispatcher or the poller is
proved to leave the database that the protocol reaches by the corresponding steps, so that everything proved of
runs holds of it. `Batches` contains the facts these loops need.

*Independent parts.* `Retention`, `Statistics`, `Routing`, `Lifecycle` and `Identity`.

## Assumptions

- Ids are fresh when drawn (they are UUIDs); `used` records all ids ever drawn. A target's binding stands for its
  fingerprint; `Identity` proves that this is sound as long as the hash does not collide on the streams involved.
- Dokploy's history of a resource changes only when a POST of this engine is processed (one new entry, in front,
  at POST time, naming no other attempt), when old entries are dropped from its end, and when an entry's status or
  description is edited without naming another attempt. A POST whose answer was lost or which was rejected may or
  may not have created an entry; one that was accepted has. A POST is not processed later than the exchange that
  sent it.
- There is one dispatcher, one poller and one drainer, as the application wires them. A worker that returns an
  error ends the process, which is a crash in the model.
- Instants are unbounded integers of nanoseconds; columns hold milliseconds, truncated as the source does.
- A run starts with a process about to start on any database that satisfies the schema, the row invariant and the
  audit invariant; the empty database is one.

## Findings

- README.md of the repository says sends that resolve to the same remote Compose resource are serialized until a
  deployment id is bound. The dispatch key also covers the SSH tunnel, so two targets reaching one resource
  through different tunnels are not serialized. `TwoWays.ExactIffOneWay` shows that correlation is exact under a
  generation if and only if no Dokploy resource is reached in two ways; for every generation with two ways there is
  a run that binds a lost attempt to another delivery's deployment.
- It also says that an HTTP target with an unknown outcome offers Retry. The operation is offered but always ends
  with "reconciliation unavailable"; a direct delivery can be retried exactly when its send definitely failed
  (`Manual.DirectRetryCondition`).
- It says that backwards stage transitions are excluded from the pipeline metrics. Going from waiting back to
  initialization is not; it is the only one that slips through (`Statistics.OnlyBackwardStep`).
- The detail of a push can show an event that the list hides: exactly when the pipeline that continues the push last
  has a later notification without the trigger, the revision or the ref of the push
  (`Lifecycle.ResolvingOnceLandsOnListedIff`).
- A manual request can send again what is already running. The service looks an unbound attempt up by its
  description token only, although README.md of the repository says that Git-backed deployments may replace the
  description; the stored cursor is not used, and a send answered as rejected is not looked up at all.
  `Doubling.RetryDoublesALostSend` and `Doubling.RetryDoublesARejectedSend` reach such states from the empty database,
  and `Doubling.ManualSendsAgainIff` says for every run exactly when it happens.
- "Existing deployments finish on the old generation" fails for an attempt that was given up: a manual request that
  finds its deployment still going on makes the attempt active again, possibly under a later generation
  (`Reactivation.ActiveUnderTwoGenerations`). This is the only way: a step makes a settled attempt active if and only
  if it is such a correction (`Reactivation.OnlyCorrectionsReactivate`), and without one in between an attempt is
  active under one generation (`Reactivation.SameGenerationUnlessReactivated`).
- A superseded attempt keeps the pair it had, so a row can show unknown/locating for as long as it is kept
  (`Doubling.LocatingForEver`).

## Model

| member | source | states |
|---|---|---|
| Theorems.StepKeepsInv | internal/store/work.go:75-579 | every action of every worker, of a reload, of start-up, of the remote side and of a crash keeps the inductive invariant: rows sound, status copies and audit replay in agreement, mutual exclusion, no send or claim without an owner, queue and order coherent, at most one POST |
| Theorems.InvariantHolds | internal/app/app.go:73-103 | the invariant holds in every state of every run, crashes and restarts included |
| Theorems.StatusAgreement | internal/store/work.go:560-573 | in every reachable state a delivery's stored pair equals its current attempt's pair and the replay of its audit log from pending/not_started, each record starting where the previous ended |
| Theorems.ReachablePairs | internal/domain/status.go:35-50 | every attempt in every reachable state carries one of thirteen pairs; monitored ones have a due time and a deadline; every settled pair is done or offers exactly one operation |
| Reachability.ExactlyThirteenPairs | internal/worker/poller.go:183-221 | a status pair occurs in some run from the empty database if and only if it is one of the thirteen |
| Domain.ExpectedPairsAreThirteen | internal/domain/status.go:5-25 | the expected pairs are exactly the thirteen listed of the forty-five |
| Domain.PairTable | internal/domain/status.go:35-50 | which six of the thirteen pairs are active, which three offer a retry and which four a redeploy |
| Domain.SettledPairsOfferOneOperation | internal/domain/status.go:35-50 | a settled expected pair is done if and only if it offers no operation, and no pair offers two |
| Theorems.MutualExclusion | internal/store/work.go:84-113 | two deliveries to the same base URL, resource kind and resource id (or, without a key, to the same target) are never both sending or monitored without a bound deployment |
| Theorems.StepKeepsExact | internal/worker/dispatcher.go:86-150 | every action keeps the fence around a send: as long as its cursor is in the history, everything newer belongs to its attempt |
| Theorems.ExactnessHolds | internal/worker/poller.go:85-107 | the correlation invariant holds throughout every run in which deliveries carry keys and a resource is reached in one way |
| Theorems.CorrelationIsExact | internal/dokploy/client.go:178-245 | in such runs an attempt is bound only to the deployment its own POST created, and no two attempts share a deployment |
| TwoWays.TwoWaysBreakExactness | internal/runtimecfg/ssh.go:40-46 | every generation with two ways to one resource has a run from the empty database that binds an attempt to another attempt's deployment |
| TwoWays.ExactIffOneWay | internal/store/work.go:93-111 | no resource is reached in two ways under a generation if and only if correlation is exact in all its runs from an exact start, and if and only if it is in all its runs from the empty database |
| Paths.EmptyIsExact | internal/app/app.go:73-103 | a process on the empty database starts from an exact state |
| Theorems.AtMostOnePost | internal/worker/dispatcher.go:101-121 | over any run the target is reached at most once per attempt |
| Theorems.PostsArePreparedDurably | internal/dokploy/client.go:132-145 | whenever a target is reached the attempt is sending, its request and for Dokploy its cursor are durable, and it has not been sent before |
| Theorems.ActiveDeliveriesResolve | internal/runtimecfg/binding.go:26-87 | while the process serves, every active delivery resolves in the current generation and the dispatcher's row stands |
| Theorems.DoneAndSupersededAreFrozen | internal/service/attempts.go:80-92 | a done attempt's row and a superseded attempt's row never change again, and a superseded attempt never becomes current |
| Theorems.BindingsAreImmutable | internal/store/work.go:360-378 | over any run an attempt's bound deployment and cursor never change once set, request evidence is never erased and pending is never re-entered |
| Theorems.AtMostOneManualAttempt | internal/store/attempts.go:73-147 | of all manual requests naming the same current attempt at most one creates a new attempt |
| Theorems.EventsAreUnique | internal/store/ingest.go:31-50 | two events of a reachable state never share provider, source and delivery identity |
| Theorems.FanOutHappensOnce | internal/store/routing.go:173-212 | a deferred event has no deliveries; once routed, an event and its set of deliveries never change |
| Theorems.NoOvertaking | internal/publichook/handler.go:119-155 | across reloads and crashes events are routed in exactly the order they were accepted, directly or through the queue |
| Theorems.QueueIsCoherent | internal/store/routing.go:30-73 | the queue holds exactly the deferred events, and is empty whenever events are routed directly |
| Evolution.StepEvolves | internal/store/work.go:337-403 | any action changes only current, not-done rows, keeps their evidence and bindings, moves poll marks only forward from a due instant, and creates rows only under fresh ids |
| ReloadTheorems.PublishedOnlyWhenQuiet | internal/runtimecfg/manager.go:202-250 | a generation is replaced only while no delivery is active, and no row is touched |
| ReloadTheorems.WaitingOnlyShrinks | internal/runtimecfg/manager.go:320-346 | while a reload waits, no action adds a delivery to the active set |
| ReloadTheorems.WaitingReloadIsPublished | internal/runtimecfg/manager.go:320-346 | in every reachable waiting state the reload step publishes the candidate if nothing is unfinished and changes nothing at all otherwise |
| ReloadTheorems.CompiledReloadWaitsOrIsPublished | internal/runtimecfg/manager.go:225-250 | a compiled reload is current at once if nothing is unfinished and is kept as the candidate otherwise: it is never lost |
| ReloadTheorems.OneGenerationPerActivity | internal/runtimecfg/manager.go:272-282 | while a delivery stays active within one process, the generation does not change |
| Reactivation.OnlyCorrectionsReactivate | internal/store/attempts.go:99-112 | whatever the step, a settled current attempt becomes active if and only if a standing manual correction finds its deployment still going on |
| Reactivation.SameGenerationUnlessReactivated | internal/runtimecfg/manager.go:202-250 | within one process an attempt current and active at two instants is so under the same generation unless such a correction of the settled attempt lies between |
| Reactivation.ActiveUnderTwoGenerations | internal/service/attempts.go:179-189 | from the empty database, within one process: an attempt active under one generation, timed out, and active again under another |
| ReloadTheorems.ClaimsBelongToTheCurrentGeneration | internal/worker/poller.go:69-75 | whatever the dispatcher or the poller still has to commit was claimed under the generation now current |
| ReloadTheorems.DrainerStep | internal/worker/drainer.go:36-63 | one run of the drainer while draining removes exactly the queue head and routes it, or turns idle on an empty queue |
| ReloadTheorems.DrainingTakesQueueLengthPlusOne | internal/worker/drainer.go:36-63 | a queue of n events with no arrivals drains in exactly n + 1 runs, in queue order |
| PollTheorems.ClaimsAreExclusive | internal/store/work.go:240-266 | a delivery whose poll is in flight is not due at any later instant |
| PollTheorems.ClaimsAreNeverLost | internal/store/work.go:406-471 | while serving, a monitored delivery not being polled is due exactly from its due instant on |
| PollTheorems.LateCompletionsAreFinal | internal/worker/poller.go:183-221 | a completion under a claim taken at or after the deadline ends the activity |
| PollTheorems.PollsAreBounded | internal/store/work.go:285-318 | while an attempt stays under monitoring its poll mark moves strictly forward and only before the deadline, so the number of claims is bounded by the time left |
| PollTheorems.SentRowsFallDue | internal/worker/dispatcher.go:126-143 | after a send the row is due exactly from the interval, or the timeout if shorter, after the answer |
| PollTheorems.RecoveredRowsFallDue | internal/store/work.go:452-471 | recovery keeps schedule, deadline, binding and evidence of a monitored row and gives an interrupted send a fresh schedule |
| Polling.PollInterval | internal/runtimecfg/generation.go:329-341 | a configured interval of at least a millisecond is kept, a shorter positive one is a millisecond, and none is a second |
| Polling.PollTimeout | internal/runtimecfg/generation.go:329-341 | a positive configured timeout is kept, none is thirty minutes |
| Polling.CompletionReleasesOrEnds | internal/worker/poller.go:183-221 | whatever the lookup says, a completion leaves a sound row that is settled or claimable strictly later, keeps an existing binding, and is final at or after the deadline or on an unsafe correlation |
| Polling.CompletionLeaves | internal/worker/poller.go:183-221 | the row each lookup answer leaves: the pair of each remote status, running and unrecognized ones due again exactly one interval later or timed out at the deadline; no match keeps pair and binding and falls due one interval later, or ends at the deadline as timeout if bound and unknown if not; an unsafe correlation ends as unknown |
| Polling.ClaimAdvances | internal/store/work.go:285-318 | a claim moves the poll mark strictly forward, keeps the deadline and makes the row not due at any instant |
| Correlation.DeploymentMatchesAttempt | internal/dokploy/client.go:563-574 | scanning the description's fields finds the attempt token exactly when it occurs |
| Correlation.FindDeployment | internal/dokploy/client.go:178-194 | finds an entry if and only if it is the newest one with the bound id, or without one with the token, and everything before it can be read; not found if and only if all can be read and none matches; never ambiguous |
| Correlation.Newer | internal/dokploy/client.go:212-220 | the walk collects exactly the entries newer than the cursor and tells whether it was reached |
| Correlation.FindDeploymentAfter | internal/dokploy/client.go:207-245 | when each answer comes, said of the history alone: nothing newer if and only if the cursor is the newest entry (or there was none and there is none), cursor missing if and only if it was dropped from a readable history, failed if and only if an unreadable entry comes before it, ambiguous if and only if several are newer and not exactly one carries the token, and else the one newer entry or the one with the token |
| Correlation.LatestDeploymentID | internal/dokploy/client.go:197-204 | the cursor before a send is the newest entry, empty for an empty history, and unavailable exactly if the newest cannot be read |
| Correlation.FindAfterAnswers | internal/dokploy/client.go:207-245 | the same equivalences for the lookup the protocol uses: its five answers exclude each other and cover every history |
| Correlation.FindAnswers | internal/dokploy/client.go:178-194 | the same for the lookup by id or token |
| Correlation.FindAfterBindsOnlyUnambiguousEntries | internal/dokploy/client.go:207-245 | an entry is bound if and only if the cursor is in the history and the entry is the only newer one or the only newer tokened one |
| Correlation.TwoTokens | internal/dokploy/client.go:231-243 | two entries with the attempt's token never count as one |
| Correlation.FoundMatches | internal/dokploy/client.go:556-574 | a found entry is in the history and matches by id once bound, by token before |
| Manual.SubmittedUpdatesFit | internal/service/attempts.go:51-206 | an update is submitted only while idle, for a compatible target, from a settled or unknown pair, and corrects only to a deployment found for the attempt |
| Doubling.SingleHolds | internal/worker/dispatcher.go:101-121 | in every run no attempt creates two deployments and no history lists one twice |
| Doubling.FindsOwnEntry | internal/service/attempts.go:151-155 | the manual lookup finds an attempt's own entry if and only if the attempt is bound or the entry carries its token |
| Doubling.ManualSendsAgainIff | internal/service/attempts.go:51-206 | in every run, with the attempt's own deployment in the history, a manual request creates a new attempt if and only if it is permitted and the send was answered as rejected, or the attempt is unbound and the token gone, or it is a redeploy of a deployment that failed |
| Doubling.LiveDeploymentsAreDoubledIff | internal/service/attempts.go:151-206 | in every run a running, unrecognized or done deployment is sent again if and only if the request is permitted and overlooks it |
| Doubling.RetryDoublesALostSend | internal/service/attempts.go:151-160 | from the empty database: a retry of a lost send whose running deployment carries no token creates a claimable second attempt |
| Doubling.RetryDoublesARejectedSend | internal/service/attempts.go:99-103 | from the empty database: a retry of a send answered as rejected creates a claimable second attempt while its deployment runs |
| Doubling.LocatingForEver | internal/store/attempts.go:113-135 | from the empty database: a superseded attempt shows unknown/locating in every later state that still holds it |
| Manual.UnknownDirectDeliveriesCannotBeRetried | internal/service/attempts.go:151-155 | a direct delivery with an unknown outcome is offered Retry and always refused |
| Manual.DirectRetryCondition | internal/service/attempts.go:80-106 | a settled direct delivery can be retried if and only if its send definitely failed |
| StoreTransactions.Store.ClaimPendingAttempt | internal/store/work.go:75-165 | claims the first claimable delivery in receipt order and moves row, copy and log to sending; nothing is claimed only if nothing is claimable; the guarded updates cannot miss |
| Columns.NextIsFirst | internal/store/work.go:84-113 | the next claim is the pending delivery no one holds the resource of that was received, created and named first |
| StoreTransactions.Store.TransitionAttempt | internal/store/work.go:514-579 | writes an outcome to row, copy and log exactly when the attempt is current and sending, else changes nothing |
| StoreTransactions.Store.MarkEnqueued | internal/store/work.go:167-169 | records an accepted Dokploy send as enqueued and locating with a schedule |
| StoreTransactions.Store.MarkAccepted | internal/store/work.go:172-174 | records an accepted direct send as done without a schedule |
| StoreTransactions.Store.MarkTransportFailed | internal/store/work.go:176-178 | records a definite failure without a schedule |
| StoreTransactions.Store.MarkTransportUnknown | internal/store/work.go:180-182 | records an uncertain Dokploy send as unknown and locating with a schedule |
| StoreTransactions.Store.MarkTransportUnknownTerminal | internal/store/work.go:185-187 | records an uncertain direct send as unknown without a schedule |
| StoreTransactions.Store.MarkDokploy | internal/worker/dispatcher.go:122-149 | chooses the outcome of a Dokploy send |
| StoreTransactions.Store.MarkDirect | internal/worker/dispatcher.go:182-208 | chooses the outcome of a direct send |
| StoreTransactions.Store.RecordDeploymentRequest | internal/store/work.go:190-210 | writes the request once, exactly when the attempt is current, sending and has none |
| StoreTransactions.Store.SetDeploymentCursor | internal/store/work.go:213-229 | writes the cursor once, exactly when the attempt is current, sending and has none |
| StoreTransactions.Store.SelectDuePolls | internal/store/work.go:241-263 | selects the first 32 due deliveries in due order |
| Columns.BatchIsFirst | internal/store/work.go:241-263 | the due batch is the first thirty-two monitored rows whose due time and deadline, whichever is first, has come, in order |
| StoreTransactions.Store.ListDuePolls | internal/store/work.go:232-334 | claims exactly the due batch and returns the rows as they were before; no claim in the loop can miss |
| StoreTransactions.Store.CompletePoll | internal/store/work.go:337-403 | commits exactly while the claim stands; logs exactly the status changes |
| StoreTransactions.Store.RecoverOne | internal/store/work.go:461-509 | releases one interrupted row and turns an interrupted send into one to be located |
| StoreTransactions.Store.RecoverInterrupted | internal/store/work.go:406-512 | rewrites exactly the interrupted rows; afterwards none is sending, and the returned changes report every attempt found sending once |
| StoreTransactions.Store.ListActiveBindings | internal/store/recovery.go:25-53 | lists each active delivery once with its current attempt and pair |
| StoreTransactions.Store.TerminateIncompatibleActive | internal/store/recovery.go:56-126 | exactly if the attempt is still current, unchanged and active it ends: as failed/not_started from pending/not_started, as unknown/unknown from anything else, without schedule or claim and with binding, cursor and request kept; nothing else changes |
| StoreTransactions.Store.ApplyManualUpdate | internal/store/attempts.go:73-147 | compare-and-swap: applies correction and replacement exactly if attempt and pair are the expected ones |
| Columns.ApplyIs | internal/store/attempts.go:73-147 | the update column by column: correction, replacement and what is kept |
| StoreTransactions.Store.Ingest | internal/store/ingest.go:14-74 | stores event and fan-out, or returns the existing event for a duplicate, or rejects malformed input |
| StoreTransactions.Store.InsertDeliveries | internal/store/ingest.go:52-68 | the fan-out loop adds one delivery with a pending attempt per item |
| Columns.AddAllFansOut | internal/store/ingest.go:52-68 | the fan-out adds one pending delivery with one fresh pending attempt per item and touches nothing else |
| StoreTransactions.Store.IngestDeferred | internal/store/routing.go:30-73 | stores the event as deferred at the end of the queue, or returns the existing one |
| StoreTransactions.Store.PeekDeferred | internal/store/routing.go:108-139 | returns the queue head, whose event is deferred |
| StoreTransactions.Store.FinalizeDeferred | internal/store/routing.go:142-214 | routes and dequeues exactly the expected head; a stale head changes nothing |
| StoreTransactions.Store.CountActive | internal/store/routing.go:80-92 | counts the active deliveries; zero if and only if none is active |
| StoreTransactions.Store.CountQueued | internal/store/routing.go:99-105 | counts the queue |
| StoreTransactions.Store.ClearHistory | internal/store/history.go:15-47 | deletes everything exactly when nothing is active or queued |
| ReloadManager.Manager.Initialize | internal/runtimecfg/manager.go:164-199 | the start-up mode follows from the queue and the active deliveries |
| ReloadManager.Manager.BeginReload | internal/runtimecfg/manager.go:202-213 | only an idle manager starts a reload |
| ReloadManager.Manager.FailValidation | internal/runtimecfg/manager.go:263-270 | a failed candidate leaves the current generation and idle mode |
| ReloadManager.Manager.PublishCandidate | internal/runtimecfg/manager.go:272-282 | the candidate becomes current and draining begins |
| ReloadManager.Manager.FinishReload | internal/runtimecfg/manager.go:225-250 | with nothing unfinished the compiled generation is current and draining begins; otherwise it is the waiting candidate and the current generation stays |
| ReloadManager.Manager.AdvanceWaiting | internal/runtimecfg/manager.go:320-346 | with nothing unfinished a waiting candidate becomes current and draining begins, and without a candidate draining begins under the same generation; with something unfinished, or when nothing waits, nothing changes |
| ReloadManager.Manager.SetIdleIfQueueEmpty | internal/runtimecfg/manager.go:357-373 | draining ends exactly on an empty queue |
| Workers.ReceiveHook | internal/publichook/handler.go:119-155 | a well-formed new event is recorded without deliveries if unsupported, put last in the queue during a reload, and otherwise stored with exactly one fresh pending delivery per target of the decision; duplicates and malformed events change nothing |
| Workers.DrainOnce | internal/worker/drainer.go:36-63 | one pass takes the head off the queue and gives its event the decision and one fresh pending delivery per target, or turns idle on an empty queue, or does nothing outside draining |
| Workers.DispatchOnce | internal/worker/dispatcher.go:52-150 | one pass takes the first delivery nobody holds the resource of, in order of receipt, creation and id, and leaves it failed without a request, or with cursor, request and the pair of the outcome, due one interval and bounded one timeout after the answer; nothing else changes; its result is reached by the steps Claim, ReadCursor, StoreCursor, RecordRequest, Post, FinishSend (or their shorter forms) of the protocol |
| Workers.SendClaimed | internal/worker/dispatcher.go:65-150 | a claimed delivery is sent only to a compatible target and, for Dokploy, only after its cursor is stored |
| Workers.SendFenced | internal/worker/dispatcher.go:86-150 | the newest deployment is stored as the cursor before the request is recorded |
| Workers.RecordAndPost | internal/worker/dispatcher.go:107-121 | the target is reached only after the request is durable |
| Workers.LookUpPoll | internal/worker/poller.go:82-102 | the lookup of a poll goes by id or token when bound or without a cursor, else by cursor |
| Workers.PollOnce | internal/worker/poller.go:62-132 | one pass takes the first thirty-two due rows in order and leaves in each exactly what the answer of its lookup means (failed lookups included), with the interval of its target; every other row is kept; if the batch is not full, nothing is due afterwards; its result is reached by the step ClaimPolls and then LookUp and CompletePoll per row |
| Paths.AlongKeepsInv | internal/worker/dispatcher.go:52-150 | the invariant carries along any sequence of protocol steps, hence through the passes of the workers |
| Workers.Judge | internal/service/attempts.go:51-110 | the verdict on a manual request; what it submits fits the row |
| Workers.ExecuteManual | internal/service/attempts.go:51-206 | which refusal a request gets, or what it writes: a new pending attempt when nothing was sent or nothing is found, the pair and schedule of the deployment found, and both for a redeploy of a failed one; a refusal changes nothing, and only success creates an attempt |
| Workers.SubmittedIsPass | internal/service/attempts.go:111-206 | whatever the decision submits is carried out so |
| Workers.EndUnreachable | internal/app/app.go:78-94 | every active row whose target is gone or has moved ends, as failed/not_started if it was pending/not_started and as unknown/unknown otherwise, without schedule or claim and with binding, cursor and request kept; every other row stays as it was |
| Workers.PrepareRows | internal/app/app.go:78-99 | each row becomes what check and recovery make of it, pair by pair: unreachable ones end, an interrupted send becomes unknown/locating with a schedule of its target, a claimed poll is released with its schedule kept, anything else stays; none is sending |
| Workers.Prepare | internal/app/app.go:73-103 | the same rows, and the mode follows from queue and activity |
| Retention.NewestSize | internal/store/retention.go:120-157 | keeping the newest n keeps exactly n events, or all if there are fewer |
| Retention.NewestIsClosed | internal/store/retention.go:137-140 | nothing older is kept in place of something newer |
| Retention.RankIsIndex | internal/store/retention.go:137-140 | the k-th row of the ordered query has exactly k newer ones |
| Retention.SelectAfter | internal/store/retention.go:120-157 | the query with an offset selects exactly the events with at least that many newer ones |
| Retention.DeleteEvent | internal/store/retention.go:64-68 | deletes one event with everything that hangs off it and counts it |
| Retention.DeleteEvents | internal/store/retention.go:64-80 | deletes and counts exactly the listed events |
| Retention.RetentionGroups | internal/store/retention.go:87-111 | lists every repository group once |
| Retention.PruneInOrder | internal/store/retention.go:17-62 | for any order of the groups, exactly the declared set is deleted, listed and counted |
| Retention.Prune | internal/store/retention.go:17-62 | a finished event goes if and only if its repository has as many later finished events as its limit allows, or that many of the later ones that remain fill the total limit; exactly these go with their deliveries and attempts, and exactly these are reported |
| Retention.DoomedIsOver | internal/store/retention.go:34-57 | the declared set is said by counting later events against the two limits |
| Retention.PruningIsIdempotent | internal/store/retention.go:17-62 | a second pruning with the same limits deletes nothing |
| Retention.PruningRespectsLimits | internal/store/retention.go:34-57 | active and deferred events survive, no limit is exceeded, and non-positive limits delete nothing |
| Statistics.Observe | internal/store/statistics.go:80-117 | the mutation of one pipeline's state by one row |
| Statistics.Fold | internal/store/statistics.go:65-118 | the interleaved scan leaves each pipeline in the state its own observations alone give |
| Statistics.FoldDescribes | internal/store/statistics.go:74-117 | the state summarises the observations: first and last receipt, phase and its beginning, whether it ran, and that it is invalid exactly if some observation disqualifies it |
| Statistics.PhaseTable | internal/store/statistics.go:33-46 | the phase of each of the known statuses, and of no other |
| Statistics.FoldTimes | internal/store/statistics.go:80-98 | the folded durations are the times between observations spent in each phase before the current one began, and the restarts the changes out of a terminal phase |
| Statistics.ReportIs | internal/store/statistics.go:122-151 | what is reported of a pipeline, said of its observations alone: first receipt, last status, phase times up to the end of the window, restarts, completeness and total |
| Statistics.CompleteIffShaped | internal/store/statistics.go:127 | a run is complete if and only if it starts early, has one running block and one terminal status, and no phase begins when the one before began |
| Statistics.CompleteRunsConserveTime | internal/store/statistics.go:84-98 | for a complete run initialization, waiting and running sum to first terminal minus first receipt, running is the one block, and there is no restart |
| Statistics.OnlyBackwardStep | internal/store/statistics.go:80-83 | in a complete run the only backwards step possible is from waiting to initialization |
| Statistics.BackwardSteps | internal/store/statistics.go:80-83 | a run with waiting before initialization is complete, one that goes back from running is not |
| Statistics.ReportedTotal | internal/store/statistics.go:127-131 | a total is reported exactly for complete runs and is first terminal minus first receipt |
| Statistics.ReportedOpenTime | internal/store/statistics.go:132-149 | an open valid run is accounted for up to the end of the window |
| Statistics.WindowIs | internal/store/statistics.go:52-54 | the query returns each observation within the retention, the period and the filters as often as the table holds it, oldest first |
| Statistics.WindowShows | internal/store/statistics.go:52-54 | the selection holds the rows of the last ninety days before the end of the period that pass the filters, ordered by receipt and event id |
| Statistics.CollectRuns | internal/store/statistics.go:122-151 | reports exactly the pipelines first seen in the window, each from its own observations, and whether one is open |
| Statistics.SortRuns | internal/store/statistics.go:152 | lists each run once, newest first |
| Statistics.PipelineStatistics | internal/store/statistics.go:50-154 | lists exactly the pipelines first seen in the window, newest first, each with the report its observations mean; active tells whether one goes on |
| Routing.OverlapMeansCommonEvent | internal/config/validate.go:560-573 | the overlap test holds if and only if some event matches both predicates |
| Routing.ValidateAction | internal/config/validate.go:308-332 | accepts exactly record-only without targets and deploy with distinct known targets |
| Routing.ValidatePairs | internal/config/validate.go:278-284 | the loop over pairs of routes accepts exactly if no event matches two routes of equal priority |
| Routing.ValidateRoutes | internal/config/validate.go:258-306 | accepts exactly the configurations with well-formed ids and names, known sources, repositories and events, distinct ids, sound actions, and no event that fits two routes of equal priority |
| Routing.AcceptedIsSound | internal/config/validate.go:258-332 | the checks of validation together mean exactly that |
| Routing.CanonicalMembers | internal/config/validate.go:601-606 | the canonical order is a permutation of the configured routes |
| Routing.CanonicalOrdered | internal/config/validate.go:601-606 | the canonical order is by priority, then id |
| Routing.FirstCanonical | internal/matcher/matcher.go:10-17 | the scan returns the first matching route |
| Routing.FirstIsWinner | internal/matcher/matcher.go:10-48 | in an accepted configuration the first match is the unique matching route of lowest priority number |
| Routing.RoutingIgnoresConfiguredOrder | internal/config/validate.go:601-606 | permuting the configured routes does not change the selected route |
| Routing.AcceptanceIgnoresConfiguredOrder | internal/config/validate.go:258-286 | permuting the configured routes does not change acceptance |
| Routing.RoutingIsTotal | internal/runtimecfg/generation.go:605-647 | on an accepted configuration routing never fails, and its decisions are those the engine expects |
| Routing.RouteOnce | internal/runtimecfg/generation.go:605-647 | the first route that fits decides: record_only without targets records, deploy gives one delivery per target in order with the binding the generation has for it, and an unknown target or a malformed action is an error; without a fitting route the event is unmatched |
| Routing.ActionIsDone | internal/runtimecfg/generation.go:621-647 | the decision is what the action of the first fitting route says, error cases included |
| Routing.RouteConfigured | internal/runtimecfg/generation.go:605-647 | on an accepted configuration the decision is that of the fitting route of lowest priority: deploy delivers to every one of its targets, in order, as the generation binds them; unmatched without one |
| Lifecycle.CurrentLifecycleEvent | internal/store/query.go:425-479 | lands on the last notification of the same pipeline for an identified one, on the last pipeline notification a push started for a push nothing else was heard of, and otherwise on the event itself |
| Lifecycle.ResolutionLands | internal/store/query.go:425-479 | resolution said of the columns of the rows alone |
| Lifecycle.ResolutionIsUnique | internal/store/query.go:425-479 | resolution is a function |
| Lifecycle.ListedIffResolvesToItself | internal/store/query.go:222-260 | an event is listed if and only if its own detail shows it |
| Lifecycle.VisibleIsListed | internal/store/query.go:222-260 | what the list shows, said of the columns of the rows alone |
| Lifecycle.ResolvingTwiceLandsOnListed | internal/store/query.go:425-479 | resolving twice always lands on a listed event |
| Lifecycle.OneListedPerPipeline | internal/store/query.go:222-233 | an identified pipeline has exactly one listed event |
| Lifecycle.ResolvingOnceLandsOnListedIff | internal/store/query.go:445-470 | resolving once lands on a listed event if and only if the event is no bare push or the pipeline continuing it last keeps to the push's trigger, revision and ref in all later notifications |
| Lifecycle.SteadyPipelinesNeedOneResolution | internal/store/query.go:425-479 | where every pipeline keeps one trigger, revision and ref, resolving once always lands on a listed event |
| Lifecycle.ResolvingOnceCanMiss | internal/store/query.go:445-470 | a push, its pipeline and a later notification without a trigger resolve to an unlisted event |
| Identity.DecodeEncode | internal/publichook/handler.go:201-206 | the length-prefixed stream is uniquely decodable for field lists of any length |
| Identity.EncodeDecode | internal/publichook/handler.go:201-206 | a decodable stream is the encoding of what it decodes to |
| Identity.EncodingIsInjective | internal/runtimecfg/generation.go:759-768 | equal streams mean equal field lists |
| Identity.WriteFields | internal/runtimecfg/generation.go:759-768 | the loop feeds the hash exactly the encoding |
| Identity.DigitsOf | internal/publichook/handler.go:201-206 | the i-th byte of a length is its i-th base-256 digit, most significant first |
| Identity.DeliveryIdentity | internal/publichook/handler.go:173-191 | the stream is the encoding of provider, source, "delivery" and the delivery id, or without one of provider, source, "fallback", the components and the body |
| Identity.IdentitiesAreInjective | internal/publichook/handler.go:173-191 | two webhooks have the same stream if and only if they agree on provider, source and delivery id, or without one on every component and the body; the two forms never coincide |
| Identity.FingerprintsIdentifyBindings | internal/runtimecfg/ssh.go:40-46 | without a hash collision fingerprints are equal if and only if endpoint and tunnel are |

## Left out

- HTTP servers, authentication, the admin API, live updates and the user interface.
- SSH tunnels, TLS, DNS and the HTTP exchanges themselves: an exchange is its outcome (accepted, rejected, uncertain).
- Decoding of YAML, JSON and URLs, provider adapters, inventory and container discovery.
- Stored snapshots, payloads, response evidence, actor and reason texts, and the columns that only serve display.
- `Manager.SetDraining`, which nothing calls; wake channels, timers and back-off: a step may happen whenever enabled.
- Database errors: a transaction happens or it does not, and a worker that gives up is a crash.
- The deletion of old pipeline observations by the retention pass, and the filters of the event list.
- Workers.DispatchOnce: one pass without interference; what other workers do in between is what the protocol's steps allow.
- Workers.PollOnce: the histories do not change during the pass; in the protocol they may change before every lookup.
- Workers.ExecuteManual: does not distinguish a changed from an unavailable target; both are refused as changed.
- StoreTransactions.Store.InsertDeliveries: inserts a delivery together with its current attempt instead of linking the two afterwards.
- StoreTransactions.Store.RecoverInterrupted: the order of the returned changes is not stated, since nothing depends on it.
- Retention.DeleteEvent: the cascades of the schema are part of the statement.
