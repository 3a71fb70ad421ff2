# Verification of the durable execution engine

A Dafny model of the engine that runs a handler across many invocations, with proofs of what its protocols keep in
every run. `dafny verify dfyconfig.toml` checks the whole project.

- **Replay** (`Ids`, `ReplayModel`, `ReplaySoundness`, `ReplayHistories`, `ReplayModes`, `ReplayLiveness`,
  `ReplayStops`, `ReplayTwice`, `ReplayDivergence`, `ReplayChanges`, `ReplayEngine`, `ReplayCounterexample`). A
  handler is a deterministic tree of blocking invokes and nested child contexts whose next step depends on every
  outcome so far. The uninterrupted run `Direct` knows no log. One invocation walks the tree against the log it starts
  from and queues updates; a history is any number of invocations, each cut after any prefix of its updates, with the
  service answering invokes and dropping children of stored contexts in between. `fuel` bounds how many operations
  follow one another and is universally quantified: `Direct(..).Some?` says the uninterrupted run ends. `ReplayEngine`
  is the same invocation over mutable contexts.
- **Checkpointer** (`Checkpointer`, `CheckpointRuns`, `CheckpointBatches`, `CheckpointSafety`, `CheckpointTheorems`,
  `CheckpointHalts`, `CheckpointOutcomes`). One action is one critical section, one message on a channel, or one
  atomic access without a lock. The flusher's send is split at every point where another goroutine may run; only the
  assembly of a batch holds the lock while outcomes are delivered, and then the steps that need the lock wait.
- **Batches** (`BatchPolicy`, `BatchCoordinator`, `BatchTheorems`, `BatchAnswers`, `BatchSequential`, `BatchLoop`,
  `BatchIds`, `BatchRecords`, `BatchReplay`, `BatchSummaryText`, `JsonText`, `JsonRoundTrip`). A run of the
  coordinator is the sequence of its workers' arrivals, in any order. The items of a batch that is rebuilt are
  programs of the replay model.
- **Stored errors** (`ErrorChain`, `ErrorFixpoint`, `ErrorContents`, `ItemErrors`, `ErrorKinds`, `Utf8`). How a failed
  item's error chain is stored and rebuilt.
- **Suspension** (`Parking`, `ParkingRuns`, `ParkingSafety`, `ParkingTheorems`, `ParkingWakes`, `ParkingMemory`).
  Parked goroutines, watches, futures, the generation counter and the settle period, over all interleavings.
- **Plugins and combinators** (`WrapHooks`, `Combinators`, `ReadOrder`). Hooks are arbitrary trees of calls, returns
  and panics; futures settle on arbitrary schedules, and every look at one takes a time of its own.

Where the code does less than its documentation says, the model follows the code and the exact condition is proved:

- A context too large to store is run again on later invocations. If an operation inside it never recorded an outcome
  (its result, summary or input failed to marshal), the re-run diverges. `NeverDivergesIffRerunnable` gives the
  condition both ways; `SecondInvocationDiffers` is a handler whose second invocation returns another result.
- `observeOutcome` documents that code stops replaying at the first new outcome. A child that records no outcome counts
  as new every time, so the code after it is live again when a later operation suspends (`LiveTwice`). `CleanIffCalm`
  gives the condition both ways for all handlers, `LiveOnceIffCalm` for liveness alone; both also among the runs in
  which each invocation lists the operation the one before it stopped at, the premise the rule is documented on.
- `awaitIdle` is documented to return when no request is queued or in flight. A deliver that counted down to 0 may be
  preempted before it closes the waiters, and then closes one that registered for a later request: the invocation
  answers while that request is not recorded (`AnswerMayPrecedeRecord`). `AnswerIsDurableIff` gives the condition both
  ways; `AwaitingHandlerIsDurable` says what a handler that awaits its requests may rely on.
- A batch stored as its summary record rebuilds its items from their own operations. `SummaryReplaysIff` gives the
  condition both ways: bodies that run again must leave final records, and a NORMAL item that fails with a bare
  stand-in records a message without the type its error text shows.
- `normalizeBatchItemErrors` documents equal errors on the first run and on every replay. `LiveEqualsReplayIff` and
  `ItemErrorFixedIff` give the condition both ways; a body that fails with a nested `ChildContextError`, for one, gains
  a level on replay.
- `invokeWrapSafely` documents that a body's panic reaches the caller whatever the hook does. A hook that calls the body
  from another goroutine and ends first loses it (`SpawnedPanicIsLost`). `PanicReachesIff` gives the condition both
  ways.
- `marshalBatchSummaryRecord` omits a summary with no fitting prefix, and sometimes one with a fitting prefix
  (`FittingPrefixMayBeDropped`). `KeptIffRoomForFirstRune` and `NothingLostIffRoom` give the condition both ways.

Inputs that come from outside are parameters: what the service answers and when an invocation wakes, whether a
checkpoint call is accepted, what user functions, serializers and completion callbacks return (as functions of their
arguments), in which order workers report and futures settle, and when contexts end.

## Model

| member | source | states |
|---|---|---|
| Ids.RenderInjective | durable/ids.go:9-48 | IDs are distinct: two (context path, position) pairs with the same text are the same pair |
| Ids.FormatInjective | durable/ids.go:42-48 | the text of an ID determines both the context prefix and the position |
| Ids.OpIds.Next | durable/ids.go:18-21 | claims the ID that peek announced and moves the counter by one |
| Ids.OpIds.Advance | durable/ids.go:29-34 | moves the counter forward by the number of skipped positions |
| Ids.OpIds.Child | durable/ids.go:36-40 | a child context mints from its own entity ID, starting afresh |
| ReplayEngine.ExecContext.ClaimOperation | durable/execution_context.go:447-455 | claims the next ID and leaves replay when neither the operation nor its first child is recorded |
| ReplayEngine.ExecContext.ObserveOutcome | durable/execution_context.go:586-606 | a new outcome, and nothing else, moves a replaying context to live |
| ReplayEngine.AwaitOperation | durable/invoke.go:267-303 | the wait ends with the settled record's outcome, or with suspension |
| ReplayEngine.RunClaimedInvoke | durable/invoke.go:174-303 | an invoke short-circuits on a terminal record, awaits an open one, starts an unrecorded one, and reports divergence on a mismatch |
| ReplayEngine.RunClaimedChild | durable/child_context.go:387-554 | a child short-circuits, re-runs an oversized body, returns its recorded failure, or runs live |
| ReplayEngine.RunLiveBody | durable/child_context.go:440-554 | START if unrecorded, the body in the mode childReplayMode gives, then the record of its completion |
| ReplayEngine.Drive | durable/execution_context.go:447-606 | a whole run of handler code on mutable contexts is the functional run, in events, visits, verdict and end |
| ReplayDivergence.InvokeDivergesIff | durable/validation.go:17-65 | over the record's fields alone, an invoke reports divergence, and answers it, if and only if its record has a type and another type, subtype or name, or its context has succeeded and it has no final record |
| ReplayDivergence.ChildDivergesIff | durable/child_context.go:387-440 | a child answers divergence if and only if its record differs in type, required subtype or name, or its context has succeeded and it has no final record |
| ReplayDivergence.InvokeAnswersIff | durable/invoke.go:174-303 | an invoke returns a value if and only if the function succeeded with a payload that unmarshals, fails as any other ending says, and suspends if and only if no ending has come |
| ReplayDivergence.InvokeRecordsIff | durable/invoke.go:174-303 | an invoke records its START, with name and input, if and only if it was never recorded, and nothing else but the ending it waited for |
| ReplayDivergence.ChildReturnsIff | durable/child_context.go:480-554 | a child that ran returns a value if and only if its body did, the value marshals and comes back from its bytes, and a result over 256 KiB has a summary |
| ReplayDivergence.ChildRecordsIff | durable/child_context.go:480-554 | the completion record of a child, field by field: its failure, its stored result, or its summary with the mark that it must run again |
| ReplayChanges.ReachableIsOrdered | durable/child_context.go:387-554 | in every log a history reaches, everything the direct run does before a recorded operation is complete |
| ReplayChanges.ChangedCodeDiverges | durable/execution_context.go:626-741 | whatever history of a rerunnable handler wrote the log, code that first differs from it in the kind, name or subtype of a recorded operation diverges in its first invocation, unless an enclosing recorded result spares it that operation |
| ReplaySoundness.OneInvocation | durable/child_context.go:387-554 | from any log that fits the direct run, one invocation ends with the direct outcome or suspends and every prefix of its updates fits again; it reports no divergence when every context it runs again can be |
| ReplaySoundness.Rerun | durable/child_context.go:1118-1146 | re-running an oversized body over a complete log records nothing and returns the direct outcome exactly when every operation in it wrote a final record |
| ReplaySoundness.WritesIn | durable/ids.go:9-48 | a context records only operations beneath the positions it claims |
| ReplayHistories.ReachableFits | durable/child_context.go:387-554 | every log any history reaches holds only records of the direct run, however invocations are cut and children of stored contexts dropped |
| ReplayHistories.ReplayRefinesDirect | durable/child_context.go:387-554 | any run over any number of cut invocations gives the uninterrupted run's outcome or waits, and reports no divergence |
| ReplayHistories.StartsOnlyUnrecorded | durable/invoke.go:174-209 | no recorded operation is ever started again, and none twice in an invocation |
| ReplayHistories.NeverDivergesIffRerunnable | durable/execution_context.go:626-741 | no history diverges if and only if no oversized context holds an operation that writes no final record |
| ReplayCounterexample.HandlerNotRerunnable | durable/child_context.go:480-554 | a nested child that fails to marshal inside an oversized context meets the failing condition |
| ReplayCounterexample.SecondInvocationDiffers | durable/execution_context.go:626-711 | for that handler the next invocation returns another result and reports divergence |
| ReplayCounterexample.LiveTwice | durable/execution_context.go:576-606 | a child that never records an outcome makes the code after it live in two invocations, the second of which lists the answered invoke as updated |
| ReplayStops.StopsAtOpenInvoke | durable/execution_context.go:563-572 | an invocation that suspends awaits an invoke of its own code that nothing answered and that stays open in the log it leaves |
| ReplayModes.ModeOnlyMovesToLive | durable/execution_context.go:536-606 | in every context of an invocation, once code runs live all later code does; a re-run is never live |
| ReplayLiveness.Runs | durable/execution_context.go:536-606 | from a log that a crash-free run left, one invocation of a calm handler is live exactly where no earlier one ran, and leaves a log that says so |
| ReplayLiveness.LiveExactlyOnce | durable/execution_context.go:576-606 | in every crash-free run of a calm handler nothing diverges, and each stretch of code is live in the first invocation that runs it and in no other |
| ReplayTwice.CleanIffCalm | durable/execution_context.go:558-606 | all crash-free runs of a handler are free of divergence and live exactly once if and only if it is calm: in no context is an operation that leaves no final record, or whose re-run would meet one, followed by code that may still suspend; the same holds of the runs whose invocations each list the operation the one before stopped at |
| ReplayTwice.LiveOnceIffCalm | durable/execution_context.go:558-606 | for handlers that never diverge, code is live exactly once in all crash-free runs, and in all those whose invocations list what the one before stopped at, if and only if the handler is calm |
| ReplayTwice.CulpritSpoils | durable/execution_context.go:558-606 | when a handler is not calm, an invocation stopped at the invoke after the offending operation is followed by one that runs visited code live or diverges, whatever the service records of that invoke and lists as updated |
| ReplayLiveness.EverySegmentRuns | durable/child_context.go:387-554 | when a crash-free run of a calm handler finishes, exactly the stretches of the direct run have been run |
| Checkpointer.CheckpointerObject.Append | durable/checkpoint.go:473-508 | the request takes the next position, joins the queue, and starts a flusher only if none runs |
| Checkpointer.CheckpointerObject.Deliver | durable/checkpoint.go:160-176 | the outcome is sent, outstanding falls by one, and at 0 every idle channel is closed |
| Checkpointer.CheckpointerObject.AwaitIdle | durable/checkpoint.go:298-311 | nothing to wait for when outstanding is 0, otherwise a new channel that a later deliver closes |
| Checkpointer.CheckpointerObject.TerminateAtQueueEnd | durable/checkpoint.go:255-263 | the cutoff is fixed at the queue end only when termination has not happened yet |
| Checkpointer.CheckpointerObject.RecordHalt | durable/checkpoint.go:282-291 | the first halt cause wins |
| CheckpointHalts.HaltIsFinal | durable/checkpoint.go:272-291 | in every run, a halt cause once recorded never changes |
| CheckpointHalts.FirstHaltWins | durable/checkpoint.go:272-291 | the recorded cause is the one carried by the first failed call, branch call without a token, or halt raised elsewhere, and none is recorded before it |
| CheckpointHalts.FailuresAreReal | durable/checkpoint.go:600-743 | a request settles with a failure only if a call ended with that very failure, or it was raised as a halt, before |
| Checkpointer.CheckpointerObject.Refusal | durable/checkpoint.go:727-743 | a batch may be sent exactly when the checkpointer is not terminated, or the batch is sendable and no halt was recorded; a failed call's cause is passed on to sendable batches only, every other refusal is plain |
| Checkpointer.CheckpointerObject.TakeBatchLocked | durable/checkpoint.go:559-593 | the loop takes, settles and keeps the requests its specification names, with the current token |
| CheckpointBatches.TakeSorts | durable/checkpoint.go:559-593 | every consumed request is in the batch or settled, never both, in queue order, and settled only because its context ended or termination refuses it |
| CheckpointBatches.TakeWithinLimits | durable/checkpoint.go:548-593 | a batch carries one request or respects both the byte and the update limit |
| CheckpointBatches.DeliverAllSettles | durable/checkpoint.go:153-176 | settling a run of requests changes exactly their outcomes and outstanding |
| CheckpointOutcomes.TakesRightly | durable/checkpoint.go:548-593 | each settled request learns that its context ended, or else that it came too late; a batch stops only at a request that would exceed 750 KiB or 250 updates; the idle channels close if and only if nothing is outstanding any more |
| CheckpointSafety.ActionKeeps | durable/checkpoint.go:238-743 | every critical section, in any interleaving, keeps the queue, call, order, gap and handler invariants |
| CheckpointSafety.GapsAboveBatch | durable/checkpoint.go:600-643 | a batch about to be sent holds nothing queued after a refused request it depends on |
| CheckpointSafety.FinalLeavesNothing | durable/checkpoint.go:372-392 | behind the final write the queue holds only requests that termination refuses |
| CheckpointTheorems.HandedFormPrefix | durable/checkpoint.go:242-270 | requests handed to the client are a prefix of the queue, ignoring those whose own context ended; the final write waits for all before the cutoff |
| CheckpointTheorems.SettledImpliesRecorded | durable/checkpoint.go:394-412 | a request settles with nil only if its call was accepted, and then so was every earlier request but those settled because their context ended |
| CheckpointTheorems.TokensRotate | durable/checkpoint.go:600-716 | each call carries the token the previous call returned, and every call but the last was accepted |
| CheckpointTheorems.NothingAfterFailure | durable/checkpoint.go:272-291 | no call is issued after one that failed or came back without a token |
| CheckpointTheorems.CallsAreUniform | durable/checkpoint.go:600-616 | in every call all requests may be sent after termination or none may, and the call respects the limits |
| CheckpointTheorems.NothingLaterSent | durable/checkpoint.go:238-263 | nothing queued after the handler returned is ever sent, but the invocation's own final write, and a final write that succeeded is recorded |
| CheckpointTheorems.AnswerIsDurable | durable/handler.go:565-585 | when the invocation answers SUCCEEDED after an idle queue and its wait was not overtaken, everything queued before the handler returned is recorded |
| CheckpointTheorems.AnswerIsDurableIff | durable/checkpoint.go:160-176 | from any state in which the handler has returned, every SUCCEEDED answer is durable if and only if no decided close is still pending over an unrecorded request when awaitIdle registers, or a halt cause is set |
| CheckpointTheorems.AnswerMayPrecedeRecord | durable/checkpoint.go:298-311 | a handler that awaits one request, queues one more and returns can reach such a state and be answered before that request is recorded |
| CheckpointTheorems.AwaitingHandlerIsDurable | durable/handler.go:565-585 | whatever a handler saw settled before it returned is recorded when the invocation answers, overtaken or not |
| CheckpointTheorems.OutstandingIsExact | durable/checkpoint.go:153-176 | outstanding counts requests being submitted, queued, in flight and being dropped, and the outcome sent but not yet counted off; all others are settled; a non-empty queue has a flusher |
| CheckpointTheorems.OutcomeIsFinal | durable/checkpoint.go:153-176 | no request is settled twice |
| CheckpointOutcomes.CallsAreAnswered | durable/checkpoint.go:514-546 | in every run, a request that a call carried learns what became of that call; only a branch of an invocation that is ending is refused although its call was recorded |
| CheckpointOutcomes.UnsentAreAnswered | durable/checkpoint.go:559-616 | a request that no call carried was refused only because it was queued after the cutoff or the token was withdrawn, failed only with the recorded halt cause, or its context had ended; the final write is never too late |
| CheckpointOutcomes.NoBranchGoesOn | durable/checkpoint.go:514-546 | once the invocation is ending, no branch request learns any more that it is recorded |
| CheckpointOutcomes.WaitIsForSomething | durable/checkpoint.go:298-311 | an invocation that waits for the queue to drain always has a request outstanding, or its channel is about to close |
| CheckpointTheorems.NothingStranded | durable/checkpoint.go:510-546 | left alone, the flusher exits with every submitted request settled |
| BatchPolicy.PercentageIsExact | durable/batch.go:2856-2873 | the percentage test is the exact rational comparison |
| BatchPolicy.MinSuccessfulIsEarly | durable/batch.go:2754-2777 | MIN_SUCCESSFUL_REACHED is decided only while some item is not terminal and enough succeeded |
| BatchPolicy.ThresholdVerdictIff | durable/batch.go:2754-2873 | in numbers of items: when a threshold policy stops for its successes, when for its failures, and when not at all, each if and only if |
| BatchPolicy.CustomVerdictIff | durable/batch.go:2794-2835 | a custom policy stops, breaks or goes on if and only if its callback, shown the true numbers, says so |
| BatchPolicy.InitialVerdictIff | durable/batch.go:2779-2790 | before any item, only a callback may decide, shown no results, and never on an empty batch |
| BatchPolicy.Decider.Terminal | durable/batch.go:2754-2807 | the item's status is recorded and the verdict is the policy's on the new statuses |
| BatchPolicy.Decider.Initial | durable/batch.go:2779-2790 | only a custom policy on a non-empty batch is consulted before any item runs |
| BatchCoordinator.RunKeeps | durable/batch.go:1240-1382 | over all arrival orders: slots are running plus suspended items within the concurrency, each started item is running, suspended or accepted, and no admission is left open |
| BatchTheorems.AdmissionIsBounded | durable/batch.go:1245-1294 | slots never exceed the concurrency, started items are a prefix of index order, and each worker reports once |
| BatchTheorems.EveryItemAccepted | durable/batch.go:1311-1419 | the loop ends with every item accepted unless a decision, a fatal error, a suspension or a refused START stopped it |
| BatchTheorems.ReasonIsFold | durable/batch.go:1338-1373 | the accepted outcomes are the shortest prefix in arrival order at which the threshold policy fires, with its verdict there as reason |
| BatchTheorems.AllCompletedMeansAll | durable/batch.go:620-640 | ALL_COMPLETED holds only if every item is terminal and the failures are tolerated |
| BatchTheorems.EarlyResultReports | durable/batch.go:1421-1453 | every started item is reported, with its own outcome if accepted and as STARTED otherwise |
| BatchAnswers.AnswersIff | durable/batch.go:1396-1454 | each of the four answers of a concurrent batch if and only if, over arrivals and policy: a refused START comes first, then the first fatal error, then a suspension when no decision was made, else completion with the decision or ALL_COMPLETED |
| BatchAnswers.ThresholdAnswersIff | durable/batch.go:1338-1454 | the same for a threshold policy, over the terminal outcomes in arrival order and the shortest prefix on which it fires |
| BatchAnswers.RefusalIff | durable/batch.go:1250-1294 | a START is refused if and only if an item whose START would be is reached before a decision, with a slot free for it |
| BatchAnswers.ShownIs | durable/batch.go:1338-1373 | what the policy is shown after each arrival: the started items and the outcomes that arrived before the decision |
| BatchSequential.SequentialIsOneSlot | durable/batch.go:1157-1193 | the sequential path gives the same result, error or suspension as the coordinator with one slot |
| BatchSequential.RefusedNeverStarts | durable/batch.go:1250-1270 | an item whose START was refused is never dispatched |
| BatchLoop.Loop.AdmitItems | durable/batch.go:1249-1309 | the admission loop admits in index order while slots, items and the decision allow |
| BatchLoop.Loop.ReceiveOutcome | durable/batch.go:1318-1373 | one outcome is suspended, fatal, raced or accepted and judged |
| BatchLoop.Loop.RunToEnd | durable/batch.go:1311-1448 | the loop terminates with the result of the arrivals it received |
| BatchLoop.RunSequentially | durable/batch.go:1164-1193 | items run in order, the first error ends the batch, and the policy is judged after each |
| BatchLoop.ExecuteBatch | durable/batch.go:1130-1454 | a policy may end the batch before any item; otherwise one of the two paths decides the result |
| BatchIds.ClaimItems | durable/batch.go:1605-1612 | item i gets the ID batchItemIDs predicts, and a FLAT batch takes none from the enclosing context |
| BatchIds.ItemIdsAreDistinct | durable/batch.go:1571-1612 | items have distinct IDs, none is the batch's own, and operations after the batch get fresh ones |
| BatchIds.ItemIdTexts | durable/batch.go:1571-1612 | a NORMAL item's ID continues the enclosing numbering, a FLAT item's is numbered from 1 beneath the batch's own |
| BatchIds.ReplayKeepsCounter | durable/batch.go:1636-1658 | replaying a terminal batch leaves the enclosing counter where the live run left it |
| BatchIds.CounterMovesIff | durable/batch.go:1646-1658 | a changed concurrency moves the operations after a batch, compared with its live run, exactly when one setting is sequential, nesting is NORMAL and some but not all items started |
| BatchRecords.NormalizeErrors | durable/batch_payload.go:271-280 | each failed item's error is replaced in place by its rebuilt stored form |
| BatchRecords.ToPayload | durable/batch_payload.go:294-321 | the full payload holds every item, or is refused exactly when some item's bytes are not JSON |
| BatchRecords.FromPayload | durable/batch_payload.go:326-351 | items are rebuilt in order, and the first that does not decode fails the replay |
| BatchRecords.PayloadReplaysIff | durable/batch_payload.go:264-351 | the full payload replays to the live result if and only if every failed item's stored error is stable |
| BatchRecords.NewSummaryRecord | durable/batch_payload.go:402-429 | one marker per admitted item, and the counts add up to the total |
| BatchRecords.FromSummary | durable/batch.go:2446-2522 | the admitted items are rebuilt from their own operations, abandoned ones as STARTED, and too many are refused |
| BatchRecords.ReplayFailsIff | durable/batch.go:2446-2522 | replay from a record fails if and only if it names more items than the batch has, or an accepted item's own operations give no outcome that decodes |
| BatchRecords.RecordReplaysIff | durable/batch.go:2433-2522 | a summary record gives the live items if and only if the batch still has room for them and each is rebuilt |
| BatchReplay.ItemLogFits | durable/batch.go:1708-1800 | over any cut invocations an item's operations in the log stay those of its uninterrupted run |
| BatchReplay.FinishedIsComplete | durable/batch.go:1456-1569 | an item that ended did so with its uninterrupted run's outcome, and all it could record is recorded |
| BatchReplay.RerunIsLive | durable/batch.go:1816-1860 | a FLAT item, or one whose result is too large, re-runs to its live outcome unless an operation in it has no final record, and then it diverges |
| BatchReplay.AcceptedReplaysIff | durable/batch.go:1816-1890 | an accepted item is rebuilt as it was reported if and only if its body can be re-run, where it is, and its recorded message is its error's text |
| BatchReplay.FromLog | durable/batch.go:1893-1990 | a batch stored as its summary record is rebuilt from that record, its items' records and the re-runs of the others |
| BatchReplay.SummaryReplaysIff | durable/batch.go:2433-2522 | such a batch, abandoned items included, replays to its live result without divergence if and only if it still has its items, every re-run body holds only operations with final records, and no NORMAL item failed with a bare stand-in |
| ErrorFixpoint.StoringIsImage | durable/batch_payload.go:86-129 | stored levels are named, bounded in number and in payload |
| ErrorFixpoint.FixedIffStable | durable/batch_payload.go:86-262 | storing and rebuilding a rebuilt level gives it again exactly when the stored form is stable |
| ErrorFixpoint.LiveEqualsReplayIff | durable/batch_payload.go:264-280 | an item's error is the same on the first run and on replay if and only if its stored form is stable |
| ItemErrors.MetaSurvives | durable/batch.go:2256-2362 | with the body's error text as message, the record of a failed item rebuilds the very error its first run reported, for every error |
| ErrorKinds.KindIsReported | durable/batch.go:2213-2362 | the error of a failed item wraps an error of the very SDK type the body failed with, under its name and, for a serializer failure, its direction |
| ErrorKinds.CauseIsReported | durable/batch.go:2199-2362 | it carries the type and the bounded message of that error's own cause, or the item's text where there is none; an external failure or timeout without words names itself |
| ErrorKinds.TimeoutIsReported | durable/batch.go:2213-2362 | `CallbackTimedOut` still matches if and only if the body's error was a timeout, a callback error that matched it, or a step or condition caused by a recorded timeout |
| ErrorKinds.TimeoutMayBeLost | durable/batch.go:2199-2362 | a step that fails with a caller's own error around the timeout does not match it any more |
| ErrorKinds.KindSurvives | durable/batch_payload.go:86-280 | type, item name and text are the same after the error is stored and rebuilt |
| ErrorKinds.TimeoutSurvives | durable/batch_payload.go:206-262 | so is the match with `CallbackTimedOut`, unless the recorded cause is of a type that keeps none |
| ErrorContents.HeartbeatIsReported | durable/errors.go:725-768 | a reported timeout is one of a heartbeat if and only if the older heartbeat name was recorded or the message says so, in any case |
| ErrorContents.OwnTypeIsReported | durable/batch.go:2342-2362 | without an SDK error inside, an item's error takes the body's own type, text and payload |
| ErrorContents.MessageIsTextIff | durable/batch.go:2337-2362 | the recorded message is the error's text if and only if the error is not a stand-in that has a type |
| ItemErrors.RecordKeepsItemErrorIff | durable/batch.go:2337-2362 | the record of a failed item yields the first run's normalized error if and only if the recorded message is the error's text |
| ItemErrors.ItemErrorFixedIff | durable/batch.go:2289-2362 | for every recorded type and metadata, an item's error is the same on the first run and on replay if and only if no SDK error with a cause of its own is recorded as, or in, the failure |
| ErrorFixpoint.PayloadIsReported | durable/errors.go:410-443 | a rebuilt level reports the payload its stored level determines |
| ErrorFixpoint.StoredLevelsBounded | durable/batch_payload.go:60-84 | at most 32 levels are stored |
| ErrorContents.StoredLevelsAre | durable/batch_payload.go:60-129 | every error of a chain is stored as one level, up to the 32nd, and none is lost before |
| ErrorContents.DeepLevelsIgnored | durable/batch_payload.go:159-204 | of any stored form, what lies beneath the 32nd level changes nothing, but for the type of the 33rd |
| ErrorContents.PayloadIsFirst | durable/errors.go:410-443 | the stored payload is the first one offered along the chain and through joined errors, cut at 256 KiB where a rune begins |
| ErrorFixpoint.SentinelSurvives | durable/batch_payload.go:206-262 | a sentinel at the end of the stored chain still matches after a rebuild |
| Utf8.TruncateUtf8 | durable/batch.go:2140-2151 | the loop cuts at the last rune boundary within the bound |
| Utf8.TruncatedIsLongest | durable/batch.go:2140-2151 | the result is the longest prefix within the bound that splits no rune |
| BatchSummaryText.MarshalSummaryRecord | durable/batch_payload.go:431-468 | the loop terminates, the output fits whenever the bare record does, and a summary that fits is kept whole |
| BatchSummaryText.FittedIsCleanPrefix | durable/batch_payload.go:431-468 | what is stored of the summary is a prefix of it that splits no rune |
| BatchSummaryText.KeptIffRoomForFirstRune | durable/batch_payload.go:431-468 | among the summaries whose first clean cut is at c, every one with a fitting part keeps a part if and only if 6c bytes are left for its text, or too few for any part |
| BatchSummaryText.NothingLostIffRoom | durable/batch_payload.go:431-468 | no valid summary loses all its fitting parts if and only if the bare record leaves 24 bytes for its text, or fewer than 3 |
| BatchSummaryText.FittingPrefixMayBeDropped | durable/batch_payload.go:431-436 | a bare record of 262130 bytes drops a two-byte summary whose first byte alone would fit |
| JsonText.EscapedSplits | durable/serdes.go:63-79 | the JSON text of a string cut on a rune boundary is the texts of its parts |
| JsonRoundTrip.RuneIffEncoded | durable/serdes.go:63-79 | a text begins with a rune of n bytes if and only if it begins with the n-byte encoding of a Unicode scalar value of RFC 3629 |
| JsonRoundTrip.EscapedReadsBack | durable/serdes.go:63-79 | the JSON text of any byte string reads back, by RFC 8259, as the string itself, with U+FFFD for each byte that begins no rune |
| Parking.SuspendSignal.WakeLocked | durable/park.go:136-150 | wakes a waiter once and stops counting it |
| Parking.SuspendSignal.AwaitOperation | durable/park.go:270-316 | refuses, returns at once, or parks a waiter in the operation's watch, in one critical section |
| Parking.SuspendSignal.OnStateMerged | durable/park.go:385-412 | the records of a response wake or update exactly the watches they match |
| Parking.SuspendSignal.WakeAbandoned | durable/park.go:414-437 | every waiter under an abandoned handle is woken and watches left empty end, in any iteration order |
| Parking.SuspendSignal.FireLocked | durable/suspend.go:260-273 | firing wakes every operation waiter and ends every watch |
| Parking.SuspendSignal.Park | durable/park.go:171-182 | a goroutine with a pending signal is not counted as parked |
| Parking.SuspendSignal.SignalParker | durable/park.go:184-195 | a signal is recorded and the goroutine uncounted together |
| Parking.SuspendSignal.Received | durable/park.go:197-208 | one pending signal is consumed |
| Parking.SuspendSignal.Settle | durable/future.go:157-182 | the first settlement wins and wakes every waiter of the future |
| Parking.SuspendSignal.AwaitSettlement | durable/future.go:119-245 | a goroutine parks on futures only while none of them has settled |
| Parking.SuspendSignal.ForgetWaiter | durable/future.go:249-261 | a woken waiter is taken off every future |
| Parking.SuspendSignal.MarkAwaited | durable/park.go:109-125 | the first await attaches the detached waiters of the gate |
| ParkingSafety.ActionKeeps | durable/park.go:113-525 | every critical section keeps the count, watch, future and wake-up invariants |
| ParkingSafety.GenAdvances | durable/park.go:113-437 | every park, wake, watch or detach change advances gen, and nothing lowers it |
| ParkingTheorems.ParkedIsExact | durable/park.go:152-208 | parked equals unwoken waiters plus parked parkers, a parker with an unreceived signal is not counted, and every watch has an unwoken waiter |
| ParkingTheorems.NoLostWakeUp | durable/park.go:254-316 | a goroutine still parked on an operation sits in its live watch, and if it should wake, the waking step is still to come |
| ParkingTheorems.WakeUpsArrive | durable/park.go:385-437 | matching a response leaves nobody parked on a ready operation, and waking beneath a batch leaves nobody under an abandoned one |
| ParkingTheorems.FuturesWake | durable/future.go:157-182 | a goroutine still parked on futures finds none settled, and once the signal fires each will be |
| ParkingTheorems.WokenOnce | durable/park.go:136-150 | a waiter is woken at most once and keeps what it was woken with |
| ParkingWakes.AwakeMeansWokenRightly | durable/park.go:385-437 | in every run, a goroutine that woke from an operation holds the suspension sentinel if and only if a firing or an abandoned subtree woke it, and otherwise a matched record had ended its wait; one that waited on futures never holds it |
| ParkingWakes.AwaitAnswersIff | durable/park.go:270-316 | awaiting is refused if and only if the signal fired or the subtree is abandoned, answered at once if and only if the record ends the wait, and parks otherwise |
| ParkingWakes.MatchWakes | durable/park.go:385-412 | a response wakes exactly the goroutines parked on operations it reports as ended, with their records |
| ParkingMemory.ParkerIsParkedIff | durable/park.go:152-208 | a worker is parked if and only if it blocked with no signal left to take and none has come since; pending is the signals sent and not taken |
| ParkingMemory.FirstSettlementWins | durable/future.go:157-182 | a future settles with what the first action to settle it gives: the sentinel when drained by a firing or registered after it, else its own outcome |
| ParkingMemory.ForgottenForGood | durable/future.go:249-261 | a waiter taken off the futures is never listed again, and the others stay listed |
| ParkingMemory.WatchesAreCurrent | durable/park.go:385-412 | a watch has observed the record in the log whenever no response is left to match |
| ParkingMemory.DetachedUntilAwaited | durable/park.go:109-125 | a goroutine parked behind a gate is detached until the gated future is awaited and attached from then on; one that parks later is as detached as it asked to be |
| ParkingMemory.AbandonedIff | durable/park.go:414-437 | a subtree is abandoned if and only if the flag of it or of one around it is set |
| ParkingTheorems.SettledOnce | durable/future.go:157-182 | a future settles once, by its operation or by the suspension |
| ParkingTheorems.EqualGensMeanNoChange | durable/park.go:495-525 | equal generations mean nothing parked, woke, was watched or detached in between |
| ParkingTheorems.SuspensionWasStable | durable/park.go:458-525 | when a settle period decides to suspend, every active branch was parked on the same operations throughout |
| ParkingMemory.SuspendsIff | durable/park.go:458-481 | in every reachable state, the invocation should suspend if and only if it has not, some goroutine is parked on an operation, and the context ended or every active branch is parked, nothing executes and no checkpoint is under way |
| ParkingMemory.DecidedIff | durable/park.go:495-525 | a suspension is decided if and only if some settle period ended with those conditions and the generation it began with |
| WrapHooks.BodyRunsAtMostOnce | durable/plugin.go:781-804 | whatever the hooks do, and on whichever goroutine they call, the body runs at most once |
| WrapHooks.InvokeRunsOnce | durable/plugin.go:969-1003 | what one hook wraps runs once or not at all; its panic comes out, and no other does |
| WrapHooks.UnfinishedThenRecorded | durable/plugin.go:929-967 | a hook may be told that the body has not ended and, once it has, get the recorded outcome |
| WrapHooks.BodyPanicReachesCaller | durable/plugin.go:969-1003 | a body panic reaches the caller if and only if no hook, in this run, ended before its own call of what it wraps had |
| WrapHooks.PanicReachesIff | durable/plugin.go:969-1003 | whatever the hooks of a stack do, the panic of a body that ran reaches the caller if and only if none of them, told of such a body, can end while its own call still runs |
| WrapHooks.UnspawnedAlwaysReaches | durable/plugin.go:969-1003 | if no hook calls from another goroutine, a body panic always reaches the caller, whatever hooks skip, repeat, recover or raise |
| WrapHooks.HookLosesPanicIff | durable/plugin.go:969-1003 | a hook loses the panic of some body if and only if, told of a body that panics, it ends while its own call still runs |
| WrapHooks.SpawnedPanicIsLost | durable/plugin.go:969-1003 | a hook that calls on another goroutine and returns makes the chain return although the body panicked |
| WrapHooks.OnlyBodyPanics | durable/plugin.go:981-1003 | no hook's own panic escapes the chain |
| WrapHooks.HookPanicYieldsInner | durable/plugin.go:981-1003 | a hook that panics yields the reply of the function it wraps, or is told that this has not ended yet |
| WrapHooks.PanickingHooksAreSkipped | durable/plugin.go:769-804 | hooks that panic first leave the body's own outcome, run exactly once |
| WrapHooks.SkippingHookStands | durable/plugin.go:969-1003 | a hook that returns without calling keeps its outcome, and what it wraps does not run |
| WrapHooks.LastWordIsTheHooks | durable/plugin.go:969-1003 | a hook that calls over a body that returned has the last word on the outcome |
| WrapHooks.ObserversChangeNothing | durable/plugin.go:769-804 | any stack of hooks that call and hand on the outcome is the body itself |
| WrapHooks.GuardedFn.Invoke | durable/plugin.go:929-967 | the body runs on the first call only, which counts once, and every later call replays its outcome or panic |
| WrapHooks.WrapChain | durable/plugin.go:781-804 | the chain is composed with the first plugin outermost |
| Combinators.AwaitBarrier | durable/combinators.go:107-145 | passes, fails with the first failure or suspends, and leaves futures unawaited only on a fail-fast failure |
| Combinators.AnyOf | durable/combinators.go:202-281 | futures are read in the schedule's order; the first success wins if only failures were read before it, a suspension read first drains every future, and all-failed errors sit at their futures' positions |
| Combinators.AnyPass | durable/combinators.go:247-272 | a pass reads, in input order and up to a winner, exactly the pending futures that have settled when it looks at them, and keeps the others |
| Combinators.RaceOf | durable/combinators.go:283-353 | the outcome of the future that is first in the schedule's order decides; a suspension drains the others |
| Combinators.RacePass | durable/combinators.go:318-346 | a pass reads exactly the pending futures that have settled when it looks at them, up to the deciding one, and keeps the others |
| Combinators.AwaitAnySettled | durable/future.go:184-261 | the wait ends when the first of the pending futures settles, or at once if one has |
| ReadOrder.OrderIsPermutation | durable/combinators.go:243-273 | every future is read exactly once |
| ReadOrder.OrderTakesTurns | durable/combinators.go:246-272 | futures are read once they have settled; one read after another had not settled when the other's pass began, or comes after it in input order in the same pass |
| ReadOrder.FirstReadIsFirstReady | durable/combinators.go:317-346 | no future before the first one read had settled when the first wait ended |
| ReadOrder.PromptOrderFollowsSettling | durable/combinators.go:283-353 | when looks take no time, futures are read in the order they settle, ties in input order, so the first to settle wins a Race |

## Left out

- Steps, waits, conditions, callbacks and retries as operations of a handler: an invoke is the external leaf operation,
  and callbacks and `ParallelMixed` are variants of the child and batch machinery.
- Asynchronous operations, `Go` branches and virtual children in the replay theorems: handlers run blocking operations
  one after the other.
- Transient serializer failures, which end the invocation before anything is recorded, and stack traces in replay.
- Records without detail blocks, which the code reads as a fixed error.
- Batches inside the replay theorem: their IDs, decisions and stored forms are proved on their own.
- ReplayTwice.LiveOnceIffCalm: liveness alone is characterised for handlers that never diverge; after a divergence the
  code that runs is no longer the direct run's. For all handlers `CleanIffCalm` characterises the two together.
- The replay of a batch whose payload is neither stored form, which re-runs the items under the batch's own ID.
- Parallel calls of one hook's function: a call made on another goroutine runs at once and lands later, so what the
  body does is not interleaved with the hook. What becomes of a panic on that goroutine is up to the hook.
- Contexts handed through wrap hooks (`bodyContext`), log enrichment and notification hooks.
- Poll timers, their epochs and the poll schedule: a poll is one more request whose response is merged and matched.
- Pending commitments (`commitPending`, `retireCommitment`) and `awaitDrain`.
- ParkingTheorems.SuspensionWasStable: covers the branches, watches and spans, not polls in flight, which the code does
  not count as a change.
- Combinators.AnyOf: the source keeps a slice of futures and a slice of their positions; the model keeps the positions.
- Error() texts of SDK errors beyond their cause text, the fields a rebuilt error leaves zero, and the reason a
  `BatchError` recovers from its message.
- ErrorChain.Reconstruct: a rebuilt cause is a value, so the sentinel that `setErrorCause` moves into it in place is
  modelled as a new value.
- ItemErrors: attempts and callback identifiers, which no stored form keeps, and the JSON text of the metadata.
- JSON and base64 encodings other than the text of a summary, hashing of IDs, wire decoding, the AWS client and
  checkpoint error classification: an outcome of a call is accepted, without a token, or failed.
- Integer widths: counters and sizes are unbounded.
