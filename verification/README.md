# ZernFlow: verified models of its long-running work

ZernFlow publishes posts, rotates secrets, sends drip sequences and broadcasts, and walks chat flows with code that keeps
its place in database rows and expects to be cut off at any call. This project models that code in Dafny and proves what it
promises over whole runs: every interleaving of workers, every crash between two calls, every history of a row.

Two kinds of model carry the work.

* A **protocol** (`PublishProtocol`, `SecretProtocol`, `DripProtocol`, `BroadcastProtocol`) is a machine over the shared rows.
  An event is one atomic call of one worker: it happens or the worker stops before it. `Enabled` says when an event can
  happen, `Apply` what it does, `After` runs a history. The theorems are about every history.
* A **worker** (`PublishEngine.Desk`, `SecretStore.Database`, `DripProcessor.Enrollment`, `BroadcastWorker.Broadcast`,
  `FlowSession.Session`) is the code as it is written: a class whose methods change the row fields call by call. Its `log`
  lists the protocol events of its calls and of everybody else's, and `Valid()` says that the fields are exactly what the
  machine computes from `log`, so every theorem about histories holds of every state a method passes through. A script
  decides what others do between two calls, which writes fail, and where the process dies. What a method must achieve is
  stated for scripts in which its calls work, and in full for the empty script, where nobody disturbs it.

The modules, by subject:

* `PublishStates`, `PublishContract`, `PublishProtocol`, `PublishEngine`, `PublishSweeps`, `PublishQueue`: the transition
  search, what provider answers mean, the receipt protocol, the engine run with its crash budget, the reconciling sweep, and
  the task queue that ties run and sweep together.
* `SecretCrypto`, `SecretProtocol`, `SecretStore`, `SecretRewrap`: envelope encryption with ideal authenticated encryption,
  rotation against revocation, re-wrapping and resolution, and the paged re-wrapping pass.
* `DripProtocol`, `DripProcessor`: one enrollment, the gateway operations made for it, and the processors racing on it.
* `BroadcastProtocol`, `BroadcastWorker`: one broadcast, its recipients and counters.
* `FlowRuns`, `FlowSession`: the recursive flow engine with delays and resumptions, and the simulator's single loop.
* `SlaClock`, `RateLimit`, `Concurrency`, `AuditPages`, `ChannelSync`, `NumberedOptions`: self-contained algorithms.
* `Options`, `Counting`, `Sorting`, `Lexical`, `Decimal`: shared vocabulary.

## What was found

Seven promises do not hold as they stand. Each is stated with the exact condition under which it does.

* A provider whose status read raises a class that is not retried makes the engine mark a live post's receipt as failed, and
  the next run posts again (`PublishProtocol.AtMostOnceExactly`). The gateway adapter that ships here catches every exception
  of its status read (`lib/publishing/gateway-provider.ts:298-311`), so this takes another provider.
* The reconciling sweep calls itself idempotent. A second pass changes nothing, whatever the tasks, exactly when the limit has
  room for every row in flight, or is zero; otherwise rows that leave the selection make room and the second pass goes on
  (`PublishSweeps.SecondPassIsQuietExactly`).
* A rotation that stops between its insert and its swap leaves a row that makes every later rotation of that secret a
  conflict, for good; the message says "retry" (`SecretProtocol.RotatesAgainExactly`).
* The write that defers a paused sequence does not look at the step, so a processor that read the row one step earlier cuts
  a later delay of more than five minutes down to five (`DripProtocol.DelaysAreKeptExactly`).
* A broadcast that is still `scheduled` when its last recipient is written off can be promoted afterwards and stay in
  `sending` with nobody left to complete it (`BroadcastProtocol.CompletesExactly`).
* The simulator previews the engine's walk exactly when both go to the same place from every node the walk leaves
  (`FlowRuns.PreviewIsFaithful`); a branch that takes a handle without an edge ends the walk while the simulator falls back to
  another edge (`FlowRuns.FallbackMisleads`). When every edge has its node and a target of its own, that is exactly when the
  handle taken at each node of the walk has its edge (`FlowRuns.ClearPathAgrees`, `FlowRuns.SameEdgeExactly`).
* The audit key orders two instants wrongly exactly when both lie before 1970, in different milliseconds whose numerals are
  equally long (`AuditPages.KeyOrdersExactly`).

## Assumptions

* A database call either happens or is cut off before it happens; an error it reports means it did not happen.
* The unique indexes and triggers of the migrations hold: one receipt per key and attempt, one version row per secret and
  version, receipts of a settled status never change, references are set once.
* Publishing: executors that overlap hold the same `task.attempts`; a provider that answers `failed`, or raises a class it only
  raises before accepting, has not published and will not; what a status read returns is true. What a status read raises is
  not assumed: it is the condition of `AtMostOnceExactly`.
* Secrets: encryption is ideal, and one key id names one key everywhere. Deleting a secret does not overlap other work on it.
* Drips and broadcasts: the gateway makes one operation per idempotency key, a retry keeps the operation, and an operation
  that has succeeded stays so. The steps of a sequence do not change under an enrollment.
* Flows: engine and simulator see the same branch choices, given as a function of the nodes visited so far.
* Integers are unbounded; instants are milliseconds.

## Model

| member | source | states |
|---|---|---|
| PublishStates.PublishPath | lib/publishing/engine.ts:50-68 | for any finite transition table, a legal path whose inner states are hops, no longer than any other, and null exactly when there is none |
| PublishEngine.NoDeadEnd | lib/publishing/engine.ts:40-94 | with the real table, each of the engine's four targets can be reached from each state the handler admits, so "no legal transition" is never raised |
| PublishEngine.Desk.MoveTo | lib/publishing/engine.ts:77-93 | every state written, even by a walk that is cut short, is a legal edge (the `walk` of `Valid`), and a finished walk leaves the target state with the patch applied once |
| PublishContract.AmbiguousAnswersStayUnknown | lib/publishing/contract.ts:178-228 | without idempotent submits only an outright denial is recorded as failed and only a confirmation as published or partial; an accepted outcome carries a usable reference |
| PublishContract.FailuresSayWhatWasReported | lib/publishing/contract.ts:178-223 | a failure keeps the class and the finality it was reported with, a requested wait is kept within six hours, and with idempotent submits everything but an unknown outcome that reports failure is one |
| PublishContract.ConfirmationsKeepReferences | lib/publishing/contract.ts:188-193 | of a confirmation, a reference of 1 to 300 characters and an https link of at most 2000 are kept as given, anything else is dropped |
| PublishProtocol.HistoryKeeps | lib/publishing/engine.ts:176-311 | the inductive invariant over every interleaving: receipts tell the truth about their posts, each attempt after the first follows a failure or an operator, a run about to insert sits on top of the table or is bound to collide |
| PublishProtocol.DecisionOk | lib/publishing/engine.ts:177-221 | what a run decides from the receipts it reads is sound for them whatever other runs do meanwhile |
| PublishProtocol.StatusReadsAreBelieved | lib/publishing/engine.ts:196-201 | a status read that confirms is a confirmation, one that fails in a way that can pass leaves the operation accepted, any other known failure is a failure, and the rest is unknown |
| PublishProtocol.AtMostOncePublication | lib/publishing/engine.ts:176-311 | with harmless status reads, over every history live posts never exceed one plus the resolved runs, and requests sent never exceed one plus failed receipts plus resolved runs |
| PublishProtocol.AtMostOnceExactly | lib/publishing/engine.ts:196-201 | without idempotent submits and resolutions at most one post is ever live, for all histories, if and only if status reads raise only retryable or unknown classes |
| PublishProtocol.PostsTwice | lib/publishing/engine.ts:196-201 | any provider with a harmful status read has a history with two live posts |
| PublishEngine.PollDelayBounds | lib/publishing/engine.ts:127-130 | deferrals lie between 15 s and 10 min, double with each poll up to the maximum, and respect the provider's hint up to it |
| PublishEngine.AcceptedSettles | lib/publishing/engine.ts:190-204 | of runs that are not cut short, at most the polls left up to MAX_POLLS and one more find an accepted operation to poll, and the last of that many leaves it unknown |
| PublishEngine.Desk.ApplyOutcome | lib/publishing/engine.ts:248-311 | the receipt takes the outcome and the run ends with its class, finality or delay; the variant ends published, publishing, queued exactly when the queue will run the task again, or failed; a crash leaves the receipt either untouched or fully written |
| PublishEngine.Desk.CountPoll | lib/publishing/engine.ts:203-204 | one poll is counted on the receipt and nothing else changes, unless the process dies |
| PublishEngine.Desk.ResumeAccepted | lib/publishing/engine.ts:190-204 | a poll moves the latest receipt one step towards MAX_POLLS and adds no receipt; an operation that is too old ends as unknown without a status read |
| PublishEngine.Desk.StopAmbiguous | lib/publishing/engine.ts:211-216 | an ambiguous attempt is marked unknown, nothing is sent, and the variant is failed |
| PublishEngine.Desk.FinishSettled | lib/publishing/engine.ts:178-187 | a settled receipt whose variant update was lost is finished without touching any receipt |
| PublishEngine.Desk.InsertReceipt | lib/publishing/engine.ts:221-240 | the receipt of a new attempt is in the table before anything is sent |
| PublishEngine.Desk.SubmitAttempt | lib/publishing/engine.ts:219-246 | one receipt is appended and carries the interpreted answer; the attempt count of the variant grows by one |
| PublishEngine.Desk.RunApiPublish | lib/publishing/engine.ts:135-312 | a run that is not cut short leaves the variant in the state fixed by its latest receipt, in `queued` exactly for a task that runs again, and reports what that receipt says; it submits exactly when it may and there is nothing to poll; over a published or partial receipt it neither submits nor polls |
| PublishEngine.Desk.Execute | lib/publishing/engine.ts:135-312 | any number of runs after one another, each cut short anywhere: still at most one live post plus resolutions; and a run that is not cut short does what a single run promises |
| PublishEngine.Desk.Handle | lib/publishing/service.ts:143-197 | a variant that is there, admitted, with its key, a route and nothing missing is run; each other case ends with its own error or is skipped without touching a receipt; a published variant never changes |
| PublishQueue.RetryingRunsAgain | supabase/migrations/00031_execution_plane.sql:330-347 | the queue puts a failed task back for a retry exactly in the case in which the engine leaves the variant queued |
| PublishQueue.NothingToSweep | lib/tasks/runner.ts:62-97 | engine, queue and sweep agree: after a run that is not cut short, the sweep finds the variant where its task says it should be and changes nothing |
| PublishEngine.Desk.StatusReadsAreBounded | lib/publishing/engine.ts:190-204 | over all runs together a receipt's status is read at most MAX_POLLS times plus once per crash |
| PublishSweeps.ReconcilePublishing | lib/publishing/sweeps.ts:11-62 | the loop over the rows in place is the pass that reconciles each selected row, and its two counters are the selected rows and the writes |
| PublishSweeps.SweepIsLegal | lib/publishing/sweeps.ts:31-60 | every state the sweep writes is the row's own or a legal move from the one before |
| PublishSweeps.SweepFollowsTask | lib/publishing/sweeps.ts:31-60 | row by row, by the state of its task: fails without a task, publishing while it runs, untouched while an accepted post is polled, else back to queued while it waits or retries, failed, cancelled, or published with the references cut to size; rows outside the selection are left alone |
| PublishSweeps.ReconciledTwice | lib/publishing/sweeps.ts:31-60 | a reconciled row is a fixed point while its task stays as it is |
| PublishSweeps.SecondPassIsQuiet | lib/publishing/sweeps.ts:11-62 | a second pass over unchanged tasks changes no row the first one selected, and none at all when the limit is zero or has room for every row in flight |
| PublishSweeps.SecondPassGoesOn | lib/publishing/sweeps.ts:16-17 | for all rows with more in flight than a positive limit, with no task left, a second pass goes on with a row the limit shut out |
| PublishSweeps.SecondPassIsQuietExactly | lib/publishing/sweeps.ts:6-62 | for all rows and limits, a second pass changes nothing whatever the tasks, if and only if the limit is zero or at least the number of rows in flight |
| SecretCrypto.Configure | lib/secrets/kek.ts:51-62 | a provider is made exactly when all keys have 32 bytes and no retired key reuses the current id; it holds the last key given under each id |
| SecretCrypto.SealUnseal | lib/secrets/envelope.ts:33-73 | what is sealed is under the current key, is read back by every provider that has the key named, and by nobody under other associated data |
| SecretCrypto.RewrapHolds | lib/secrets/kek.ts:61-99 | re-wrapping keeps what a row holds and puts it under the current key |
| SecretCrypto.AadInjective | lib/secrets/envelope.ts:19-21 | ids without a bar give each workspace, secret and version its own associated data, so rows cannot be swapped |
| SecretProtocol.HistoryKeeps | lib/secrets/store.ts:188-391 | the inductive invariant over rotations, revocations, re-wraps and resolves: every committed version has a row that holds its value, at most one rotation owns the next version, every other unrevoked row is some rotation's business |
| SecretProtocol.CurrentRowExists | lib/secrets/store.ts:188-234 | in every history the current version has its row and every version that was ever current still holds the value its rotation was given |
| SecretProtocol.ResolveIsFaithful | lib/secrets/store.ts:338-391 | at any moment, resolving gives the value committed for the version it loaded to whoever has the key, and never another value |
| SecretProtocol.NeverBack | lib/secrets/store.ts:211-256 | current_version never decreases, committed values never change, a revoked secret stays revoked and is never rotated |
| SecretProtocol.DeleteSparesCommitted | lib/secrets/store.ts:220-223 | the compensating delete removes exactly the row its own rotation inserted, which has never been current |
| SecretProtocol.OnlyCurrentLives | lib/secrets/store.ts:224-229 | once no rotation is under way on an active secret and none was abandoned, only the current version is unrevoked |
| SecretProtocol.RewrapIsFaithful | lib/secrets/rewrap.ts:62-76 | what a re-wrap decides to write keeps the value of every row that still has the bytes it read, whatever happened in between |
| SecretProtocol.RotatesAgainExactly | lib/secrets/store.ts:190-223 | from any reachable state some continuation raises the current version if and only if the secret is active and no next version was left without an owner |
| SecretProtocol.OrphanHappens | lib/secrets/store.ts:193-219 | a rotation that stops after its insert leaves such a row on an active secret |
| SecretStore.Database.InsertVersion | lib/secrets/store.ts:193-209 | a version is inserted unless its number is taken, which is a conflict |
| SecretStore.Database.SwapVersion | lib/secrets/store.ts:212-219 | the current version moves up by one, exactly if it is the version before, the secret is active and the write works, and commits the value |
| SecretStore.Database.Rotate | lib/secrets/store.ts:181-234 | with anybody at work between its calls, a rotation that reports a version has made it current once, with its value, has revoked all versions below it, and nothing committed was taken back; where nobody stops, none is abandoned; undisturbed, it answers exactly by status, value and version number, leaving one unrevoked version or no trace |
| SecretStore.Database.RotateInserted | lib/secrets/store.ts:211-233 | a rotation that could swap has committed its version and revoked those below it, one that could not has taken it back out; undisturbed, it swaps exactly when nothing stands against it |
| SecretStore.Database.Revoke | lib/secrets/store.ts:236-257 | a revocation that reports success leaves the secret revoked; undisturbed, it succeeds and leaves no version unrevoked |
| SecretStore.Database.ReadVersion | lib/secrets/store.ts:338-365 | the row of the loaded version exists and gives the committed value exactly to a provider that has its key |
| SecretStore.Database.Resolve | lib/secrets/store.ts:294-391 | an answer is the committed value of a version that was current during the call; a purpose that trims to nothing, an unbound worker, an expired or revoked secret get none; undisturbed, it answers exactly when none of these holds and the provider has the key |
| SecretStore.Registry.Create | lib/secrets/store.ts:115-179 | a secret and its first version appear together or not at all; only a process that dies between the two writes leaves a secret without a version; it succeeds, refuses and conflicts exactly by its input and by taken names and bindings |
| SecretRewrap.KeysetContinues | lib/secrets/rewrap.ts:37-45 | querying past the last id of a page gives exactly the rest of the unrevoked rows |
| SecretRewrap.StepReadsBack | lib/secrets/rewrap.ts:123-140 | the cursor and the failure count carried in the step string read back |
| SecretRewrap.Table.RewrapRow | lib/secrets/rewrap.ts:49-86 | whatever the verdict and whoever wrote meanwhile, the row reads the same for everybody; a row of another provider is left alone; a row fails only if the provider cannot open it or the write fails; without rivals and failures exactly the rows under an older key are re-wrapped, and end under the current one |
| SecretRewrap.Table.RewrapBatch | lib/secrets/rewrap.ts:30-101 | one page of rows is dealt with once each, the counters add up to the scanned rows, and the next cursor is the last id of a full page |
| SecretRewrap.Table.Run | lib/secrets/rewrap.ts:122-145 | a run defers with the next cursor and all failures so far exactly after a full page, and otherwise ends by the failures |
| SecretRewrap.Table.RunToEnd | lib/secrets/rewrap.ts:122-145 | the chain of runs ends, visits every unrevoked row exactly once in order, changes nothing any row reads, and completes exactly without failures; an undisturbed pass leaves every visited row under the current key |
| DripProtocol.CheckDelayBounds | lib/sequence-processor.ts:260-266 | looks at an operation come between 5 s and 5 min apart and double up to that as they go on |
| DripProtocol.HistoryKeeps | lib/sequence-processor.ts:82-364 | the inductive invariant under any processors: one operation per step, only for steps reached, everything behind the current step delivered, the stored operation belongs to the current step |
| DripProtocol.DeliversInOrder | lib/sequence-processor.ts:113-222 | deliveries are the message steps from the first on, in order and each once; a completed enrollment has delivered all of them; at most one operation per step |
| DripProtocol.OperationBelongs | lib/sequence-processor.ts:183-192 | current_operation_id, when set, is an operation of the current step |
| DripProtocol.FailsForCause | lib/sequence-processor.ts:113-250 | in every history, an enrollment is written off only by a processor that, since it read the row, met a message that cannot be sent, a missing conversation, an exception for good, a lost operation or a refused write |
| DripProtocol.ActiveIsScheduled | lib/sequence-processor.ts:267-277 | an active enrollment always has a moment at which it will be fetched again |
| DripProtocol.DelaysAreKeptExactly | lib/sequence-processor.ts:101-111 | no step is ever left before its delay has passed, in all histories, if and only if no pause can come in while a later delay over five minutes is reachable |
| DripProcessor.Enrollment.ScheduleCheck | lib/sequence-processor.ts:253-279 | the next look is stored with its delay only while the row stands at the step that was read |
| DripProcessor.Enrollment.FailEnrollment | lib/sequence-processor.ts:281-298 | afterwards the enrollment no longer stands active at the step that was read |
| DripProcessor.Enrollment.StoreAdvance | lib/sequence-processor.ts:321-364 | the row moves to the next step, due after that step's delay, or is completed past the last, and only from the step that was read |
| DripProcessor.Enrollment.PostReply | lib/sequence-processor.ts:175-182 | a reply gives the operation of this enrollment and step, made if it is new |
| DripProcessor.Enrollment.Process | lib/sequence-processor.ts:82-251 | "advanced" and "failed" mean that the row no longer stands at the step it was read at, "waiting" on a live sequence that it is not due, "cancelled" that the sequence is gone; while its calls work it never ends otherwise than by the sequence, the step and the gateway's answer; undisturbed, the row has moved on, is written off or stands, as the answer says |
| DripProcessor.Enrollment.ProcessMessage | lib/sequence-processor.ts:113-222 | undisturbed, a delivered message moves the enrollment on, one pending, running or failed for now lets it wait, and one lost, unsendable or without a conversation gives it up |
| DripProcessor.Enrollment.CatchError | lib/sequence-processor.ts:54-73 | after an error the wake-up time moves by 30 s, if the row still stands at the step, and nothing else changes |
| DripProcessor.FetchDue | lib/sequence-processor.ts:34-40 | at most fifty rows, each due, and all due rows when there are fewer |
| DripProcessor.ProcessDue | lib/sequence-processor.ts:32-80 | every fetched row is counted once, as processed, waiting or failed by the way it ended |
| BroadcastProtocol.HistoryKeeps | lib/jobs/legacy-work.ts:256-427 | the inductive invariant under any workers: counters, missed counts and counts still to come add up; a completed broadcast has nobody open; only delivered messages are marked sent |
| BroadcastProtocol.CountersAddUp | lib/jobs/legacy-work.ts:334-350 | each counter plus what was settled but not counted equals the recipients settled that way, so a recipient counts at most once |
| BroadcastProtocol.SentIsDelivered | lib/jobs/legacy-work.ts:329-346 | a recipient marked sent has an operation that succeeded |
| BroadcastProtocol.SettledForGood | lib/jobs/legacy-work.ts:334-346 | a settled recipient keeps its outcome and a completed broadcast stays completed |
| BroadcastProtocol.CompletedMeansSettled | lib/jobs/legacy-work.ts:383-393 | completed means nobody is pending or sending, then and in every continuation |
| BroadcastProtocol.CountersCoverAll | lib/jobs/legacy-work.ts:346-351 | when all work is done and every count went through, sent plus failed is the number of recipients |
| BroadcastProtocol.CompletesExactly | lib/jobs/legacy-work.ts:279-281 | finished work without lapses always ends in a completed broadcast if and only if it was queued as `sending` and has recipients |
| BroadcastProtocol.PromotedTooLate | lib/jobs/legacy-work.ts:279-281 | for every broadcast queued as `scheduled`, a history that ends finished and never completed |
| BroadcastWorker.Broadcast.SettleRow | lib/jobs/legacy-work.ts:334-342 | a recipient is settled only while open, and afterwards it is settled either way |
| BroadcastWorker.Broadcast.CountOpen | lib/jobs/legacy-work.ts:384-390 | the loop reports none exactly when every recipient is settled |
| BroadcastWorker.Broadcast.SettleBroadcastIfDone | lib/jobs/legacy-work.ts:383-393 | whatever others do, nothing settled is taken back and only a broadcast in `sending` is completed; while calls work no lapse is left behind; undisturbed, it completes a sending broadcast exactly when every recipient is settled |
| BroadcastWorker.Broadcast.SettleRecipientAsFailed | lib/jobs/legacy-work.ts:399-427 | when it is done, the recipient is settled; undisturbed, an open one as failed, counted once, and the broadcast completed if it was the last |
| BroadcastWorker.Broadcast.ProcessBroadcast | lib/jobs/legacy-work.ts:256-351 | when it returns without parking or throwing, its recipient is settled for good; while calls work no lapse is left behind; undisturbed, it parks exactly on a pending or running operation, marks sent exactly on a succeeded one, and completes the broadcast with its last recipient |
| FlowRuns.SameEdgeExactly | lib/flow-engine/simulator.ts:493-508 | the simulator chooses the engine's edge if and only if the exit is plain (the first edge has no handle or all have one) or its handle has an edge |
| FlowRuns.RestIsByLastNode | lib/flow-engine/engine.ts:265-335 | a walk is parked, and how, exactly by the kind of the last node it visits; short of its limit it completes only where no edge leads on |
| FlowRuns.PreviewFollows | lib/flow-engine/simulator.ts:186-521 | from any node, with any depth, steps and resumptions left: while engine and simulator go to the same place along the walk, preview and walk agree as far as both go |
| FlowRuns.PreviewDiverges | lib/flow-engine/simulator.ts:186-521 | where they go to different places at a node the walk leaves, the preview is wrong, however often the walk is resumed |
| FlowRuns.PreviewExactly | lib/flow-engine/simulator.ts:186-521 | from any node, with enough resumptions, the preview is faithful if and only if the two go to the same place from every node the walk leaves within its steps |
| FlowRuns.PreviewIsFaithful | lib/flow-engine/simulator.ts:174-527 | for a whole flow: the simulator's nodes are the beginning of the engine's walk continued over its delays, and all of it with the same end when the simulator stays under its limit, if and only if the two go to the same place along the walk |
| FlowRuns.ClearPathAgrees | lib/flow-engine/simulator.ts:493-508 | they go to the same place when every exit taken along the walk is plain or its handle has an edge, and only then if edges lead to nodes of the flow and no two from one node to the same place |
| FlowRuns.CoveredAgrees | lib/flow-engine/simulator.ts:493-508 | a flow that has an edge for every handle its branches take, each at the nodes visited up to it, has such a walk from every node |
| FlowRuns.FallbackMisleads | lib/flow-engine/simulator.ts:500-508 | at any branch of any flow that takes a handle without an edge, the engine's walk ends and the simulator goes on to the fallback edge's node |
| FlowSession.Session.TraverseNodes | lib/flow-engine/engine.ts:265-335 | the session row and its node events show exactly the recursive walk, with its limit of 50 |
| FlowSession.Session.ExecuteFlow | lib/flow-engine/engine.ts:124-135 | a session starts exactly when the trigger leads to a node |
| FlowSession.Session.ResumeSession | lib/flow-engine/engine.ts:215-241 | resumption continues from the first edge of the stored node, or cancels when that node is gone |
| FlowSession.Session.RunWithResumes | lib/flow-engine/engine.ts:124-335 | a session resumed over its delays shows the walk that the preview theorem is about |
| FlowSession.Simulate | lib/flow-engine/simulator.ts:181-527 | the loop visits and stops as the preview does, and reports completion exactly at a dead end or under 50 steps |
| SlaClock.AcceptsExactlyDisjoint | lib/service-desk/sla.ts:71-81 | with different starts, in whatever order they are given, the pauses are accepted exactly when they lie in range and do not overlap |
| SlaClock.MeasureOneMore | lib/service-desk/sla.ts:83-84 | a pause after all others adds exactly the milliseconds it covers before the moment of evaluation |
| SlaClock.SumPauses | lib/service-desk/sla.ts:75-86 | the loop refuses exactly what is out of order and sums the number of frozen milliseconds, each counted once |
| SlaClock.EvaluateObjective | lib/service-desk/sla.ts:56-96 | an answer exactly for input in order with a representable deadline; state, remaining time and deadline are those of the time that ran outside the union of the pauses |
| SlaClock.AnswerFollowsDeadline | lib/service-desk/sla.ts:86-95 | read off the deadline: unfinished, breached and escalated from the deadline on, paused under an open pause, a warning in the last part of the budget; completed, met up to the deadline and breached after it |
| SlaClock.ResolveTargets | lib/service-desk/sla.ts:39-48 | each target is the priority's own if it has one and the policy's otherwise, in range, or there is no answer |
| SlaClock.ElapsedGrowsWithTime | lib/service-desk/sla.ts:75-88 | as the history of an unfinished objective goes on, its elapsed time never falls and grows no faster than time |
| SlaClock.BreachStays | lib/service-desk/sla.ts:91 | an unfinished breach is never undone while unfinished |
| SlaClock.BreachOutlivesCompletionExactly | lib/service-desk/sla.ts:89-91 | completing after a breach keeps it except when the budget was used up to the millisecond and no more time ran |
| SlaClock.CompletedIsSettled | lib/service-desk/sla.ts:70-95 | a completed objective's answer does not depend on the time it is asked or on later pauses |
| SlaClock.EvaluateTicket | lib/service-desk/sla.ts:98-115 | two objectives on one clock, each with the target, completion and pauses that belong to it; an answer exactly when both have one |
| RateLimit.SlidingBound | lib/security/rate-limit.ts:16-31 | while time does not run backwards, any half-open interval of the window's length admits at most (2 + clears in it) times max(1, limit) calls per key |
| RateLimit.FixedWindowLimiter.Take | lib/security/rate-limit.ts:16-26 | a denial leaves the windows alone and returns the positive rest of the key's window; everything is forgotten only to make room among running windows; the map never exceeds max(1, maxKeys) |
| RateLimit.FixedWindowLimiter.Prune | lib/security/rate-limit.ts:28-31 | exactly the running windows stay, unless they fill the map, in which case none do |
| Concurrency.MapWithConcurrency | lib/concurrency.ts:1-27 | in every interleaving the indices are mapped once each and in order of start, no more than min(concurrency, n) at a time; results stand at the index of their item; after a rejection the other workers go on until all indices are mapped or every worker has met a rejection |
| AuditPages.KeyOrdersInstants | lib/health/audit.ts:34-39 | from 1970 on, with any fraction and offset, keys compare as text the way instants compare to the microsecond |
| AuditPages.KeyOrdersExactly | lib/health/audit.ts:34-39 | of two instants that differ to the microsecond, with millisecond numerals short enough for the key (all of the years 0000 to 9999), the earlier has the smaller key, if and only if it is not so that both lie before 1970 in different milliseconds with equally long numerals |
| AuditPages.KeyTellsInstantsApart | lib/health/audit.ts:34-39 | such instants always have different keys, and in the excepted case the keys are in reverse order |
| AuditPages.OneOrder | lib/health/audit.ts:22-27 | the comparator of the merge and the filter of the query are one order |
| AuditPages.PageIsNext | lib/health/audit.ts:15-19 | a page built from each source's newest limit + 1 entries past the cursor is the next entries of the whole log, and there is a next cursor exactly when there is more |
| AuditPages.PagesListEverything | lib/health/audit.ts:15-77 | following the cursors lists every entry of both sources exactly once, newest first, and ends |
| AuditPages.CursorReadsBack | lib/health/audit.ts:56-67 | an entry's cursor reads back as its timestamp, digit for digit, and its id |
| ChannelSync.PlanSync | lib/social-gateway/channel-sync.ts:64-120 | the loop's four lists, in order, are those of the plan whose contents and effect the next rows state |
| ChannelSync.PlanIsExact | lib/social-gateway/channel-sync.ts:79-119 | entry by entry: creates are the projectable accounts without a channel, updates the channels that show something else, deactivations the active gateway channels nobody reports, unsupported the accounts that cannot be projected |
| ChannelSync.SyncConverges | lib/social-gateway/channel-sync.ts:64-120 | after a plan is carried out, planning again finds nothing to create, update or deactivate |
| ChannelSync.ChannelShowsAccount | lib/social-gateway/channel-sync.ts:85-112 | after a plan is carried out, every account that can be projected has its channel, column by column as the account says, and active exactly if the account is |
| ChannelSync.ManualChannelsStay | lib/social-gateway/channel-sync.ts:68-70 | manual channels stay as they are and none is added |
| NumberedOptions.AnswersReadBack | lib/flow-engine/platform-adapter.ts:218-225 | answering with an option's number or with its whole line gives its payload |
| NumberedOptions.NumbersAnswer | lib/flow-engine/platform-adapter.ts:222-224 | a number, whatever follows it, answers exactly when it is one of an option |
| NumberedOptions.OtherTextIsNoAnswer | lib/flow-engine/platform-adapter.ts:222-224 | blank text and text that begins with neither a digit nor a plus sign are no answers |
| NumberedOptions.PrintedLineAnswers | lib/flow-engine/platform-adapter.ts:164-182 | each option stands on a line of its own in the adapted text, and that line is such an answer |

## Left out

- Executors that overlap with different `task.attempts` (a lease that expired mid-run): the collision argument needs equal attempts.
- Database writes that report an error although they were applied; with them the compensating delete of a rotation could remove the current version.
- `lib/publishing/service.ts` beyond the handler's entry gate (planning, settling, text and media checks), manual and browser publications, receipt parts and messages, task events.
- The HTTP side of Vault: its provider is modelled as a key that wraps under the latest version and opens every version.
- SecretCrypto.SealUnseal: key bytes, IVs, tags and the wiping of buffers are abstracted into an ideal cipher, and lengths count characters as bytes.
- SecretStore.Database.Rotate: with others at work it does not say which cause a failed rotation reports; undisturbed it does.
- `deleteSecret`, the import of the legacy key, access events and audit rows of the secret store.
- SecretRewrap.Table.RunToEnd: rows inserted or revoked while the chain of batches runs are not modelled, only re-wraps by others.
- SecretRewrap.Table.RewrapRow: for Vault it does not say that the row's key version is the latest, because a stored version number is not tied to the wrapped bytes.
- Editing the steps of a sequence and cancelling an enrollment by hand while processors run; the duplicate `message_sent` analytics rows that stale processors write.
- DripProcessor.Enrollment.Process: does not bound how long a pending operation is waited for, because the gateway is free to keep it pending.
- BroadcastWorker.Broadcast.ProcessBroadcast: a retryable gateway error and any other are both "threw"; when a unit is retried or given up is the queue's business.
- The rest of `lib/jobs/legacy-work.ts`: resuming flow sessions, webhook events, and the heuristics for stranded sessions.
- `goToFlow` pauses the session it is in; the flow it starts is a session of its own and is not followed.
- What condition, AI, HTTP and message nodes compute; trigger matching; the texts the simulator prints.
- SlaClock.EvaluateObjective: reading timestamps from text; pauses with equal starts are accepted in the order given, which `AcceptsExactlyDisjoint` leaves out.
- RateLimit.SlidingBound: clocks that run backwards.
- AuditPages.CursorReadsBack: upper-case ids, which the parser folds, and old cursors that are bare timestamps.
- `lib/publishing/calendar.ts`, user interface, plumbing, storage, signature checks, address filtering, validators and texts: members that would be easy or that hold no protocol.
