# Verified model of the runtime's protocols

This project models, in Dafny 4.11, the protocols by which the runtime between an agent and a game survives retries,
expired leases, crashes, concurrent callers and arbitrary stream chunking, and proves what they promise. `dafny verify
dfyconfig.toml` checks everything.

The model keeps the program's own shape. Code that returns new values (record transitions, the fold over a transcript)
is functions. Code that updates fields or local variables in loops is classes and methods with loop invariants; each
method is proved equal to a function on the state's value, and the lemmas about runs speak of that function. Protocols
in which several callers interleave (the Godot pump, provider attempts) are state machines whose single steps are the
program's atomic actions, and the theorems quantify over every sequence of steps.

| files | what they hold |
|---|---|
| `ActionRecords`, `StableSort`, `ActionJournal`, `ActionJournalInvariant`, `ActionJournalSteps`, `ActionJournalRuns`, `ActionGoalPages`, `ActionDelivery`, `ActionReceipts`, `ActionEffects`, `ActionTwice`, `InMemoryActionJournal` | the lease-based action journal: transitions, invariant, whole runs, selection, paging, what the game may have applied, and the class with its loops |
| `Transcript`, `TranscriptInvariant`, `TranscriptPairing`, `TranscriptRepair`, `TranscriptResume`, `TranscriptRestore`, `TranscriptOrder`, `TranscriptPending`, `TranscriptPurge`, `TranscriptPurgedRestore`, `TranscriptInputs`, `TranscriptCalls`, `TranscriptGrammar`, `TranscriptRestored`, `TranscriptEndings`, `TranscriptStore` | the append-only transcript: acceptance, replayed history, crash repair, checkpoint purge, concrete logs, what the log itself says of acceptance and of restored records, and the store |
| `GodotPump`, `GodotPumpInvariant`, `GodotPumpSteps`, `GodotPumpRuns`, `GodotPumpAttribution`, `GodotPumpStaleAnswer`, `GodotPumpStranded`, `GodotPumpQueue`, `GodotPumpClaims` | the main-thread action pump with background callers |
| `SseEvents`, `SseEventLines` | the byte transformer that bounds server-sent events |
| `DelegationStore`, `DelegationLeases`, `DelegationOutcomes`, `InMemoryDelegationStore` | delegated runs under fencing leases |
| `Worldbook`, `WorldbookActivation`, `WorldbookClosure`, `WorldbookAnswer` | recursive worldbook activation under a match budget |
| `Approvals`, `ProviderAttempts`, `ExactToolRepeat`, `ArtifactPages`, `ToolResultText` | one-time approvals, provider attempts, the repeat tracker, artifact paging, text budgets |

## How values are represented

- Decimal strings (attempts, revisions, sequences) are `nat`; canonical timestamps are integers.
- A fingerprint or hash of some content is the content itself in a datatype, so equal fingerprints mean equal content.
- A JavaScript `Map` is a `map` with a `seq` of its keys in insertion order, wherever the order is observed.
- An operation that runs under a mutex is one step. A journal operation that throws keeps what it had already written.
- Clock readings, fresh identifiers and lease tokens, the run authority's answers, the tool recovery's answers, game
  transactions, the line validator, the case folding of keywords and the byte size of a finished tool result are
  parameters; the theorems hold for every choice of them that their `requires` admits. Each restore has its own readings:
  the clock once for every result it makes up, and the host's answer for every call that had started.
- `OutcomeUnknown`, `Pending` and the like are the program's string constants.

## What does not hold as one might expect

- **A purged action starts over.** `purgeTerminal` forgets the attempt count, so ensuring the same intent again yields a
  fresh record at attempt 0 (`PurgedWorkStartsOver`). `PurgedWorkIsDoneTwice` is a run that applies an action twice
  although it is of the kind that is never replayed. A finished record outlives every purge exactly when the retain list
  names its operation (`RetainingProtects`), and if every purge of its stream does, the operation is admitted once and
  applied at most once (`OneAdmission`, `RetainedEffectAtMostOnce`).
- **Restoring can make a transcript unreadable.** With a provider operation pending in the open turn, `restore` leaves
  the turn open but still appends terminals for other unterminated deferred runs, and a run terminal inside an open
  turn is rejected. `RestoreKeepsReadable` gives the exact condition, `RestoreCanStrand` a log that it happens to.
- **A checkpoint purge can make a transcript unreadable**, exactly when a run that opened deferred work only before the
  checkpoint is closed behind it (`PurgeKeepsReadable`); `PurgeCanStrand` is such a log, an ordinary compaction in the
  middle of a run. When the retained log is readable, a restore of it appends what a restore of the whole log would,
  without the terminals of runs that opened no deferred work behind the checkpoint (`RestoreAcrossPurge`).
- **A resumed restore stamps its made-up results itself**, so after a crash the messages may carry time stamps that no
  undisturbed restore would report (`ResumedStampsDiffer`). Nothing but those stamps can differ (`CrashesKeepOutcome`),
  and the messages are the same exactly when no result is made up or each reading is the one that the undisturbed
  restore would have taken (`MessagesSameWhenReadingsAre`).
- **A crash may reorder the closed runs that a restore reports**, exactly when it comes right behind the turn's closure
  and another run that is due opened deferred work before the turn's own; over any number of crashes, exactly when one
  of them does (`OrderKeptExactly`; a log: `ResumedOrderDiffers`). The set of runs stays the same.
- **A background completion may answer for the next delivery.** `TryCompleteWithoutWorldWrite` hands over to a lambda
  that reads `activeEpoch` when it is called. A receipt answers for another delivery than its own exactly when that
  reading, of which there is one for each context, came after the context's epoch had ended (`ReceiptNamesItsRead`);
  `RejectsBegunDelivery` is a reachable run in which a Rejected receipt is sent for a delivery whose transaction had
  begun and thrown. An adapter that completes on the main thread only is safe in every run
  (`MainThreadReceiptsAreHonest`).
- **A background completion may stall the channel for good.** When its call is held up just before the swap of the state
  word and swaps it in the next epoch, its event is dropped as stale, and the channel keeps waiting
  (`ChannelCanStrand`). A run comes to such a state exactly when one of its steps swaps the state word for an epoch that
  is not the active one (`StrandsExactly`), and an adapter that completes on the main thread only never does
  (`MainThreadNeverStrands`). A channel that already waits can go on exactly when a completion for the active epoch is
  queued or about to be (`WaitingGoesOnExactly`).
- **Consuming an approval with a time before its own decision** stores a record that violates the record invariant
  (`ConsumingKeepsValid`). All records that a run leaves are valid exactly when none of its consumptions did so
  (`RunsStayValid`). An approval is consumed at most once whatever the times (`ConsumedOnce`).
- **`settle` called again from inside the response callback** records the response twice
  (`ReentrantSettleRecordsTwice`, `ReentrantSettleHappens`), and two later attempts may then be open together and commit
  one index (`ReentrantSettleReusesIndex`); without a sink a newer attempt is dropped (`ReentrantSettleDropsAttempt`). A
  step behind an orderly run keeps every further run without re-entrance orderly exactly when it is no such call
  (`CleanExactly`).
- **A request that cannot be prepared blocks the lifecycle.** When preparing its provenance throws, the attempt stays the
  current one, and no later call changes anything (`FailedPreparationBlocks`, `PreparationCanBlock`).
- **Truncating text with two high surrogates in a row** may leave a prefix that ends in one of them
  (`TruncationCanEndInHigh`); every limit cuts a message safely exactly when it has no two in a row (`EveryCutIsSafe`).

## Model

| member | source | states |
|---|---|---|
| ActionRecords.ClaimKeepsSound | packages/actions/src/transitions.ts:25-45 | claiming yields a record that meets the full record invariant and holds its keys, one attempt further, and was possible only when no earlier attempt may have been applied |
| ActionRecords.ReclaimKeepsSound | packages/actions/src/transitions.ts:144-154 | taking a claim over is possible only for a safe action whose claim ran out, and keeps the record invariant |
| ActionRecords.ReceiptKeepsSound | packages/actions/src/transitions.ts:47-99 | a receipt, although it is never checked again, leaves a record that meets the full invariant; conflict keys are to be released exactly when the record stops holding; a replay changes nothing |
| ActionRecords.ReconcileKeepsSound | packages/actions/src/transitions.ts:101-142 | the same for reconciliation |
| ActionRecords.ReceiptFence | packages/actions/src/transitions.ts:47-99 | a receipt changes a record if and only if it carries the current claim's token and attempt and no receipt of that attempt exists |
| ActionRecords.ReconcileFence | packages/actions/src/transitions.ts:101-142 | a reconciliation changes a record if and only if it carries the current token and attempt, and once the attempt has an unknown receipt only with a definite resolution |
| ActionReceipts.ReceiptExact | packages/actions/src/transitions.ts:47-99 | a report is taken exactly when the record awaits it; the new receipt carries its outcome, result, model result, authority and time; the status is succeeded, failed or uncertain exactly for succeeded, rejected or unknown; a repetition changes nothing; each error names its cause |
| ActionReceipts.ReconcileExact | packages/actions/src/transitions.ts:101-142 | the same for each resolution: applied succeeds, unknown stays uncertain, not applied goes back to pending unless the action is never replayed, and then fails |
| ActionReceipts.SettleExact | packages/actions/src/transitions.ts:175-195 | a settlement is taken exactly for the same intent, a bound goal and the matching ending, writes its outcome and time, and repeats without change |
| ActionReceipts.FingerprintBindsIntent | packages/actions/src/identity.ts:13-64 | two prepared intents with one fingerprint are the same but for the order of their conflict keys |
| ActionReceipts.StoredBindingFits | packages/actions/src/validation.ts:22-60 | a stored record's goal binding names its own timeline, generation and, where given, session and actor, and its operation its own stream |
| ActionJournalInvariant.HoldersExclude | packages/actions/src/in-memory-journal.ts:375-391 | under the table invariant two claimed or uncertain records of one session share no conflict key |
| ActionJournalInvariant.StoreKeepsTable | packages/actions/src/in-memory-journal.ts:375-391 | replacing a record with the matching acquire or release keeps the table equal to the keys of holding records, each mapped to its owner |
| ActionJournalInvariant.StoreKeepsInv | packages/actions/src/in-memory-journal.ts:284-310 | the whole invariant over the three maps survives storing a sound successor of a record |
| ActionJournalSteps.EnsureKeepsInv | packages/actions/src/in-memory-journal.ts:68-108 | admitting keeps the invariant on every path, thrown ones included, and every record only advances |
| ActionJournalSteps.NextKeepsInv | packages/actions/src/in-memory-journal.ts:127-140 | retirement, expiry, replay and claiming in one selection keep the invariant also when the selection throws half-way |
| ActionJournalSteps.RecordReceiptKeepsInv | packages/actions/src/in-memory-journal.ts:142-153 | recording a receipt keeps the invariant although the new record is not rechecked |
| ActionJournalSteps.ReconcileKeepsInv | packages/actions/src/in-memory-journal.ts:155-169 | reconciling, with retirement of closed runs behind it, keeps the invariant |
| ActionJournalSteps.SettleKeepsInv | packages/actions/src/in-memory-journal.ts:202-213 | settling a goal projection keeps the invariant |
| ActionReceipts.EnsureMeans | packages/actions/src/in-memory-journal.ts:68-108 | an admission finds the stored record of its own content or stores a pending one at attempt zero under the next sequence, with each error exactly where it belongs, the goal capacity counted over the record map |
| ActionReceipts.RecordReceiptMeans | packages/actions/src/in-memory-journal.ts:142-153 | the journal behind a receipt: the one record changes as the report says, or nothing does |
| ActionReceipts.ReconcileMeans | packages/actions/src/in-memory-journal.ts:155-169 | the journal behind a reconciliation, with the run asked before a retry: a closed run fails the record, an authority that cannot be asked changes nothing |
| ActionReceipts.SettleMeans | packages/actions/src/in-memory-journal.ts:202-213 | the journal behind a settlement; only a later receipt or the record's size refuses one that fits |
| ActionJournalRuns.PurgedAreOldest | packages/actions/src/in-memory-journal.ts:215-252 | a purge takes at most limit purgeable records, and leaves one out only when full and then none that was updated before a taken one, ties by admission |
| ActionJournalRuns.PurgeKeepsInv | packages/actions/src/in-memory-journal.ts:215-252 | a purge drops only terminal, old, unretained records and keeps the invariant, the conflict table unchanged |
| ActionJournalRuns.PurgedWorkStartsOver | packages/actions/src/in-memory-journal.ts:68-108 | a purged action was not retained; ensuring its intent again admits it as a fresh record at attempt 0 whenever it succeeds at all, and for an action without a goal it succeeds exactly if the run is open |
| ActionJournalRuns.ApplyKeepsInv | packages/actions/src/in-memory-journal.ts:48-391 | every public operation keeps the invariant and moves records only forward |
| ActionJournalRuns.RunKeepsInv | packages/actions/src/in-memory-journal.ts:48-391 | the invariant holds after every operation of every run from the empty journal |
| ActionJournalRuns.ReachableHoldersExclude | packages/actions/src/in-memory-journal.ts:353-391 | in every reachable journal two holding records of one session never share a conflict key |
| ActionJournalRuns.AdmissionContinues | packages/actions/src/transitions.ts:25-66 | over a run an admission keeps its key and intent, its attempts never decrease, and success and failure are final |
| ActionJournalRuns.EarlierAttemptsRejected | packages/actions/src/transitions.ts:25-45 | an action that is not safe to replay reaches attempt n+1 only after some earlier state of the run held a recorded rejection of attempt n |
| ActionJournalRuns.NeverTwice | packages/actions/src/validation.ts:93-100 | an action that is never replayed never exceeds attempt 1 |
| ActionEffects.DispatchRaises | packages/actions/src/in-memory-journal.ts:127-140 | a dispatched record is stored as it was handed out, under its admission, with a higher attempt than before |
| ActionEffects.DispatchedOnce | packages/actions/src/in-memory-journal.ts:284-310 | over a run no attempt of an admission is dispatched twice: a later dispatch has a higher attempt |
| ActionEffects.EffectAtMostOnce | packages/actions/src/transitions.ts:25-154 | if nobody reports a rejection, by receipt or reconciliation under the dispatched claim, of an attempt whose effect the game applied, it applied at most one dispatch of each admission that is not safe to replay, over the whole run |
| ActionEffects.RejectionWasReported | packages/actions/src/transitions.ts:47-142 | a rejection of a dispatched attempt that any later journal of the run holds was reported in between, under the dispatched claim's token and attempt |
| ActionEffects.OneAdmission | packages/actions/src/in-memory-journal.ts:215-252 | an operation that every purge of its stream retains carries one admission sequence throughout the run |
| ActionEffects.RetainedEffectAtMostOnce | packages/actions/src/in-memory-journal.ts:215-252 | so a truthful game applies such an operation, if it is not safe to replay, at most once in the whole run |
| ActionEffects.RetainingProtects | packages/actions/src/in-memory-journal.ts:215-252 | a finished record outlives every purge with a given retain set if and only if the set names its operation |
| ActionEffects.WidePurgeExact | packages/actions/src/in-memory-journal.ts:215-252 | a purge with room for every record removes exactly the finished, old, unretained records of its stream whose goal, if any, was told |
| ActionTwice.PurgedWorkIsDoneTwice | packages/actions/src/in-memory-journal.ts:215-252 | a concrete run that dispatches attempt 1 of a never-replayed operation twice, with no rejection in between, because a purge did not retain it |
| ActionDelivery.RetirementExact | packages/actions/src/in-memory-journal.ts:264-282 | exactly the first candidateLimit pending records of closed runs, by admission, become failed, and nothing else changes |
| ActionDelivery.ExpiringIsEarliest | packages/actions/src/in-memory-journal.ts:331-350 | a selection expires stored claims that ran out, at most candidateLimit, and leaves one of these only when full and then none that expires before a chosen one |
| ActionDelivery.ExpiryExact | packages/actions/src/in-memory-journal.ts:331-365 | of the chosen due claims, safe ones of open runs keep their claim and every other becomes uncertain |
| ActionDelivery.ExpiryFrame | packages/actions/src/in-memory-journal.ts:331-365 | expiry leaves every record that was not chosen, and the conflict table, as they were |
| ActionDelivery.ReplayableExact | packages/actions/src/in-memory-journal.ts:331-365 | the replayable set gains exactly the chosen due claims that are safe and whose run is open |
| ActionDelivery.OldestUnsettledIsFirst | packages/actions/src/in-memory-journal.ts:312-329 | the record offered for reconciliation is the first unsettled one by admission, and none is offered only if there is none |
| ActionDelivery.ClaimIsFirstFree | packages/actions/src/in-memory-journal.ts:284-310 | the dispatched record is the first claimable one that is open and free of conflicts, claimed under the request's token one attempt further |
| ActionDelivery.NoClaimMeansNoneFree | packages/actions/src/in-memory-journal.ts:284-310 | when nothing is dispatched each of the first candidateLimit claimable records was closed or in conflict |
| ActionDelivery.NextOffers | packages/actions/src/in-memory-journal.ts:127-140 | new work is offered only when everything claimed or uncertain in scope is a safe claim of an open run that ran out; otherwise the oldest record that may not be skipped is, and nothing only when nothing is open |
| StableSort.SortIsSorted | packages/actions/src/in-memory-journal.ts:331-350 | the sort that the scans rely on orders its items and permutes them |
| StableSort.SortIsStable | packages/actions/src/in-memory-journal.ts:331-350 | items of one rank keep their order |
| StableSort.BoundedScanStep | packages/actions/src/in-memory-journal.ts:331-350 | appending, sorting and dropping beyond the limit keeps exactly the first items of a stable sort of everything seen |
| StableSort.FirstAreLeast | packages/actions/src/in-memory-journal.ts:331-350 | nothing that a full bounded scan leaves out ranks before something it kept |
| ActionGoalPages.GoalsResume | packages/actions/src/in-memory-journal.ts:171-200 | listing again behind one candidate's sequence gives exactly the candidates behind it |
| ActionGoalPages.PageThenRest | packages/actions/src/in-memory-journal.ts:171-200 | a page followed by what its cursor lists is the whole listing; without a cursor the page is everything |
| ActionGoalPages.ChainedPagesListAll | packages/actions/src/in-memory-journal.ts:171-200 | pages chained over an unchanged journal equal one full filtered scan in admission order |
| ActionGoalPages.GoalsAreAwaiting | packages/actions/src/in-memory-journal.ts:171-200 | that scan lists a record with its sequence if and only if it awaits its goal |
| ActionGoalPages.ListingNeverOversize | packages/actions/src/in-memory-journal.ts:68-108 | because admission reserves room for the settlement, listing within the batch limit never fails for an oversized record |
| InMemoryActionJournal.InMemoryActionJournal.EnsureAction | packages/actions/src/in-memory-journal.ts:68-108 | keeps the invariant, and leaves and returns what EnsureMeans says |
| InMemoryActionJournal.InMemoryActionJournal.NextDelivery | packages/actions/src/in-memory-journal.ts:127-140 | keeps the invariant, equals the selection's specification, and offers what NextOffers says |
| InMemoryActionJournal.InMemoryActionJournal.RetireClosedPending | packages/actions/src/in-memory-journal.ts:264-282 | the loop over the record map equals the retirement that RetirementExact describes |
| InMemoryActionJournal.InMemoryActionJournal.ScanDueClaims | packages/actions/src/in-memory-journal.ts:331-350 | the insert-sort-pop loop returns the first candidateLimit items of a stable sort of all due claims by expiry |
| InMemoryActionJournal.InMemoryActionJournal.ExpireDueClaims | packages/actions/src/in-memory-journal.ts:331-365 | the loop over the kept claims equals the expiry that ExpiryExact describes |
| InMemoryActionJournal.InMemoryActionJournal.FindOldestUnsettled | packages/actions/src/in-memory-journal.ts:312-329 | the loop returns the record that OldestUnsettledIsFirst describes |
| InMemoryActionJournal.InMemoryActionJournal.ClaimPendingRecord | packages/actions/src/in-memory-journal.ts:284-310 | the loop claims the record that ClaimIsFirstFree describes |
| InMemoryActionJournal.InMemoryActionJournal.RecoverDelivery | packages/actions/src/in-memory-journal.ts:119-125 | returns the first claimed or uncertain record of the stream by admission, and none only if there is none |
| InMemoryActionJournal.InMemoryActionJournal.RecordActionReceipt | packages/actions/src/in-memory-journal.ts:142-153 | keeps the invariant; the stored receipt has every field of the report and the status that its outcome asks for, nothing else changes, and the errors are those of RecordReceiptMeans |
| InMemoryActionJournal.InMemoryActionJournal.ReconcileRecord | packages/actions/src/in-memory-journal.ts:155-169 | keeps the invariant; the stored record is the one that the resolution, the replay policy and the run's state ask for, with the errors of ReconcileMeans |
| InMemoryActionJournal.InMemoryActionJournal.ListGoalProjections | packages/actions/src/in-memory-journal.ts:171-200 | the loop that stops one candidate beyond the limit returns the page of the full listing |
| InMemoryActionJournal.InMemoryActionJournal.SettleGoalProjection | packages/actions/src/in-memory-journal.ts:202-213 | keeps the invariant, and leaves and returns what SettleMeans says |
| InMemoryActionJournal.InMemoryActionJournal.PurgeTerminal | packages/actions/src/in-memory-journal.ts:215-252 | purges the records that PurgedAreOldest describes and returns their operations in order |
| InMemoryActionJournal.InMemoryActionJournal.AcquireKeys | packages/actions/src/in-memory-journal.ts:382-384 | the loop adds exactly the record's conflict keys, owned by its operation |
| InMemoryActionJournal.InMemoryActionJournal.ReleaseKeys | packages/actions/src/in-memory-journal.ts:386-391 | the loop removes exactly those of the record's keys that its operation owns |
| Transcript.ScanCommittedTranscript | packages/agent/src/durable-transcript.ts:244-387 | the loop accepts a log exactly when the fold does, and returns the same state or fault |
| Transcript.ScanStopsAt | packages/agent/src/durable-transcript.ts:244-387 | a rejected prefix rejects every extension with the same fault |
| Transcript.StepCounts | packages/agent/src/durable-transcript.ts:276-303 | an accepted record takes the next sequence and a new record id |
| TranscriptInvariant.StepKeepsCoherent | packages/agent/src/durable-transcript.ts:304-387 | every accepted record keeps open turn, deferred origins, settlements and closed runs coherent |
| TranscriptInvariant.ScanCoherent | packages/agent/src/durable-transcript.ts:244-387 | every accepted log ends in a coherent state |
| TranscriptGrammar.AcceptedExactly | packages/agent/src/durable-transcript.ts:244-387 | a log is accepted if and only if each record may come next behind those before it, told of the log alone |
| TranscriptGrammar.NextExactly | packages/agent/src/durable-transcript.ts:1004-1181 | the one-record form: envelope, turn, provider operation, calls in source order with their starts, run terminals and checkpoints, each in terms of earlier records |
| TranscriptCalls.ScanReflects | packages/agent/src/durable-transcript.ts:1004-1141 | in every accepted log the open turn's calls are the call parts of one message of the log, started or answered exactly when a record says so |
| TranscriptCalls.RecordsInPlace | packages/agent/src/durable-transcript.ts:1004-1141 | every start and result stands behind the message that makes its call, once, results in source order and naming their start |
| TranscriptCalls.ScanReplays | packages/agent/src/durable-transcript.ts:244-387 | an accepted log replays what its last checkpoint puts in place of the past and every message behind it, and reports every run it ends |
| TranscriptPairing.ScanPaired | packages/agent/src/durable-transcript.ts:1004-1141 | at every accepted point the replayed messages leave unanswered exactly the open turn's unanswered calls, in order |
| TranscriptPairing.BalancedReads | packages/protocol/src/transcript.ts:408-432 | reading messages forward with pending calls, as the checkpoint check does, agrees with reading to the end |
| TranscriptPairing.BalancedSplits | packages/protocol/src/transcript.ts:408-432 | a balanced history splits into user messages and assistant messages each followed by the results of all its calls in source order |
| TranscriptPairing.CompleteBalanced | packages/protocol/src/transcript.ts:408-432 | and conversely every sequence of such complete exchanges is balanced |
| TranscriptPairing.ReplayAnswersEveryCall | packages/agent/src/durable-transcript.ts:1022-1181 | an accepted log without an open turn replays a history in which every call is answered once, in order, directly behind its message |
| TranscriptRepair.RunClosesExact | packages/agent/src/durable-transcript.ts:430-451 | the terminals a repair prepares are exactly those of unterminated deferred runs that the repair has not already closed |
| TranscriptRestored.RepairSays | packages/agent/src/durable-transcript.ts:705-733 | every record of a repair answers a call that the log left open, interrupts the open turn or ends a run: a call never started says so, a started one carries what the host recovered or says that its outcome is unknown, and a terminal is aborted exactly when the run's last operation was abandoned |
| TranscriptRestored.CallsAreAnswered | packages/agent/src/durable-transcript.ts:705-733 | a repair answers a call of the open turn's message if and only if nothing in the log does |
| TranscriptEndings.EndedByLog | packages/agent/src/durable-transcript.ts:430-451 | which runs a repair ends, told of the log alone: those that opened deferred work and were not ended, whose last turn is the open one without a pending operation, or is closed, interrupted or with a message that did not stop to run tools |
| TranscriptRepair.ContinuingRestoresSame | packages/agent/src/durable-transcript.ts:410-470 | whatever is left of a repair restores the same messages and the same set of closed runs as starting over |
| TranscriptRepair.NothingLeft | packages/agent/src/durable-transcript.ts:410-470 | a state whose repair is finished has no open turn and nothing to repair |
| TranscriptResume.AnswerProgress | packages/agent/src/durable-transcript.ts:705-733 | the next tool result of a repair is accepted and the new log's own repair is the rest |
| TranscriptResume.ClosureProgress | packages/agent/src/durable-transcript.ts:410-429 | so is the interruption of the turn, which makes its own run's terminal due |
| TranscriptResume.RunCloseProgress | packages/agent/src/durable-transcript.ts:430-451 | and so is each run terminal |
| TranscriptRestore.RepairSteps | packages/agent/src/durable-transcript.ts:691-733 | every prefix of the repair appends is accepted and leaves exactly the remaining repair |
| TranscriptRestore.CrashesAnswer | packages/agent/src/durable-transcript.ts:389-485 | restores cut short at any append, each with its own readings, leave an accepted log that restores to the messages it had and, for each call left, the result read by the attempt that appended it |
| TranscriptRestore.CrashesKeepOutcome | packages/agent/src/durable-transcript.ts:389-485 | compared with one undisturbed restore whose host answers alike: the same closed runs, the same earlier messages, and the same results but for the stamps of made-up ones |
| TranscriptRestore.CrashesCloseSame | packages/agent/src/durable-transcript.ts:430-470 | whatever the attempts read, the same set of deferred runs is closed |
| TranscriptRestore.MessagesSameWhenReadingsAre | packages/agent/src/durable-transcript.ts:1465-1487 | the messages are equal to the last stamp if and only if every call answered by a made-up result was stamped by the reading that the undisturbed restore would have taken |
| TranscriptInputs.ResumedStampsDiffer | packages/agent/src/durable-transcript.ts:1465-1487 | a log with two unstarted calls whose restore, cut after one append and resumed later, reports stamps that no restore with one reading reports |
| TranscriptOrder.OrderKeptExactly | packages/agent/src/durable-transcript.ts:410-470 | over any number of crashes the order of the reported runs differs from an undisturbed restore's if and only if some attempt stops right behind the turn's closure while another due run opened deferred work before the turn's own |
| TranscriptInputs.ResumedOrderDiffers | packages/agent/src/durable-transcript.ts:410-470 | a log whose restore reports another order once it was cut there and resumed |
| TranscriptRestore.CompleteRestoreSettles | packages/agent/src/durable-transcript.ts:389-485 | an uninterrupted restore closes the turn, leaves nothing to repair, and returns what a fresh scan of the repaired log finds |
| TranscriptRestore.EventuallyRestored | packages/agent/src/durable-transcript.ts:389-485 | after any crashes a complete restore leaves no open turn, a scan finds what it reported, and no further restore, whatever it reads, appends anything |
| TranscriptPending.RestoreKeepsReadable | packages/agent/src/durable-transcript.ts:410-470 | a restore that gets to append leaves an accepted log if and only if not both a provider operation is pending and another deferred run is unterminated |
| TranscriptPending.RestoreCanStrand | packages/agent/src/durable-transcript.ts:430-451 | a concrete accepted log that one restore makes unreadable |
| TranscriptPurge.CutScans | packages/agent/src/durable-transcript.ts:276-303 | scanning the retained log follows the whole log's scan from the checkpoint on, as long as it closes only runs it saw open |
| TranscriptPurge.PurgeKeepsReadable | packages/agent/src/durable-transcript.ts:327-347 | the retained log is accepted if and only if every run closed behind the checkpoint opened deferred work in the retained part |
| TranscriptInputs.PurgeCanStrand | packages/agent/src/durable-transcript.ts:776-797 | a concrete accepted log that purging before its checkpoint makes unreadable |
| TranscriptPurge.PurgeKeepsReplay | packages/agent/src/durable-transcript.ts:491-513 | a readable retained log materializes the same messages at every revision from the checkpoint on |
| TranscriptPurge.PurgeKeepsHead | packages/agent/src/durable-transcript.ts:776-797 | purging leaves the head and the open turn where they were, and the retained log's scan knows a part of the deferred work and agrees on it |
| TranscriptPurgedRestore.RestoreAcrossPurge | packages/agent/src/durable-transcript.ts:410-470 | a restore of the retained log appends a record if and only if a restore of the whole log does and the record is no terminal of a run that opened no deferred work behind the checkpoint |
| TranscriptStore.SecondWriterRefused | packages/agent/src/durable-transcript.ts:755-774 | of two writers starting from one head the second is refused and told the actual head |
| TranscriptStore.AppendMeans | packages/agent/src/durable-transcript.ts:755-774 | an append succeeds if and only if the caller knows the head and its record ids are new and differ; each error tells which failed |
| TranscriptStore.PurgeMeans | packages/agent/src/durable-transcript.ts:776-797 | a purge cuts right before its checkpoint's source if and only if the limit reaches and every retained revision lies behind the source; each error tells its cause |
| TranscriptStore.PurgeKeepsRetained | packages/agent/src/durable-transcript.ts:776-797 | a purge drops at most limit records, and a stream that is still readable replays each revision it was asked to retain as before |
| TranscriptStore.InMemoryTranscriptStore.Append | packages/agent/src/durable-transcript.ts:755-774 | appends all records or none, with the conflict errors, and touches no other stream |
| TranscriptStore.InMemoryTranscriptStore.PurgeBeforeCheckpoint | packages/agent/src/durable-transcript.ts:776-797 | cuts the stream as specified or changes nothing, and touches no other stream |
| TranscriptStore.Restore | packages/agent/src/durable-transcript.ts:389-485 | the loops over calls and runs append the prefix of the repair that the ids and the budget allow, every record of it what RepairSays calls for; on success they return what RestoreResult says; an unreadable log is reported exactly when it is not accepted |
| GodotPumpSteps.NextKeepsInv | engines/godot/OpenGameAgentGodot/OpenGameAgentRuntimeNode.cs:116-153 | any step of the main thread, a background caller, the clock or the network keeps the invariant over state word, epoch, contexts, calls and events |
| GodotPumpSteps.RunKeepsInv | engines/godot/OpenGameAgentGodot/OpenGameAgentRuntimeNode.cs:258-584 | so does every interleaving of such steps |
| GodotPumpRuns.NextEffect | engines/godot/OpenGameAgentGodot/OpenGameAgentRuntimeNode.cs:292-332 | only the compare-and-swap from Executing begins a transaction, and only that of the active context, which had begun none |
| GodotPumpRuns.TransactionsBeginOnce | engines/godot/OpenGameAgentGodot/GodotAuthoritativeActions.cs:36-53 | over every interleaving each context begins its transaction at most once, under its own epoch, after a deadline check that found time left |
| GodotPumpClaims.TransactionsWithinClaim | engines/godot/OpenGameAgentGodot/OpenGameAgentRuntimeNode.cs:258-302 | over every interleaving a transaction's last check lies less than the claim's time, as the run read it once for this epoch, and less than the limit behind the epoch's start |
| GodotPumpClaims.ExecutesWithTimeLeft | engines/godot/OpenGameAgentGodot/OpenGameAgentRuntimeNode.cs:268-274 | a channel executes only with time left by claim and limit; an epoch without never gets a context, whatever happens |
| GodotPumpClaims.ClockedMeans | engines/godot/OpenGameAgentGodot/OpenGameAgentRuntimeNode.cs:262-275 | reading the claim leads on with the shorter of both times exactly when both are positive, and otherwise to the inspection |
| GodotPumpClaims.ExpiresExactly | engines/godot/OpenGameAgentGodot/OpenGameAgentRuntimeNode.cs:116-125 | the frame check inspects an executing delivery if and only if its deadline has come |
| GodotPumpClaims.TransactionsAskFirst | engines/godot/OpenGameAgentGodot/OpenGameAgentRuntimeNode.cs:292-302 | every transaction begins in a step of the main thread, after the adapter found the authority to fit in the same context's call |
| GodotPumpClaims.RepliesDecide | engines/godot/OpenGameAgentGodot/OpenGameAgentRuntimeNode.cs:519-555 | the reply to the active request ends the delivery exactly when it had settled or a definite answer was accepted; a conflict is inspected once for each claim, and everything else halts |
| GodotPumpClaims.InspectionReports | engines/godot/OpenGameAgentGodot/OpenGameAgentRuntimeNode.cs:352-394 | what the adapter finds out is what is sent, for the active delivery |
| GodotPumpClaims.ExecutesDispatchesOnly | engines/godot/OpenGameAgentGodot/OpenGameAgentRuntimeNode.cs:143-150 | over every interleaving only dispatched deliveries are executed |
| GodotPumpClaims.UncertainIsInspected | engines/godot/OpenGameAgentGodot/OpenGameAgentRuntimeNode.cs:345-350 | a transaction that returned no completion and an adapter that threw lead to the inspection |
| GodotPumpRuns.TransactionsBeginWhileExecuting | engines/godot/OpenGameAgentGodot/OpenGameAgentRuntimeNode.cs:292-332 | a transaction begins only while its own epoch is Executing and before that epoch's receipt or inspection |
| GodotPumpRuns.NothingBeginsOnceClosed | engines/godot/OpenGameAgentGodot/OpenGameAgentRuntimeNode.cs:352-424 | once a receipt or inspection of an epoch began, no continuation ever begins a transaction of its context |
| GodotPumpRuns.SucceededMeansRan | engines/godot/OpenGameAgentGodot/OpenGameAgentRuntimeNode.cs:395-424 | a Succeeded receipt is sent only for the delivery whose own transaction ran and returned that completion |
| GodotPumpRuns.OneReceiptPerEpoch | engines/godot/OpenGameAgentGodot/OpenGameAgentRuntimeNode.cs:395-424 | an epoch sends at most one receipt, for the delivery it executed, and no transaction of it begins afterwards |
| GodotPumpAttribution.RunsAttributed | engines/godot/OpenGameAgentGodot/OpenGameAgentRuntimeNode.cs:280-281 | over every interleaving each queued answer and sent receipt is a transaction's own or belongs to the epoch that its call read |
| GodotPumpAttribution.ReadsOnce | engines/godot/OpenGameAgentGodot/GodotAuthoritativeActions.cs:55-65 | over a run the completions of one context read the active epoch at most once |
| GodotPumpAttribution.ReceiptNamesItsRead | engines/godot/OpenGameAgentGodot/OpenGameAgentRuntimeNode.cs:280-281 | every receipt sent in any run is a transaction's for its own epoch, or was given by a call that read the receipt's epoch in exactly one step; it answers for another delivery if and only if that step was a stale reading |
| GodotPumpAttribution.MainThreadReceiptsAreHonest | engines/godot/OpenGameAgentGodot/GodotAuthoritativeActions.cs:55-65 | if completions without a world write enter on the main thread only, every receipt of every run is honest |
| GodotPumpAttribution.ReceiptsAreHonest | engines/godot/OpenGameAgentGodot/GodotAuthoritativeActions.cs:55-65 | in a run without a stale reading every receipt answers for its own delivery, and one given without a world write means that its context never begins a transaction, then or later |
| GodotPumpStaleAnswer.RejectsBegunDelivery | engines/godot/OpenGameAgentGodot/OpenGameAgentRuntimeNode.cs:280-343 | a concrete reachable run that sends a Rejected receipt, given by the context before, for a delivery whose transaction had begun |
| GodotPumpStranded.StrandedForGood | engines/godot/OpenGameAgentGodot/OpenGameAgentRuntimeNode.cs:519-555 | a channel that waits while no completion for the active epoch is queued or about to be stays so, and sends nothing, until the node leaves the tree |
| GodotPumpStranded.WaitingGoesOnExactly | engines/godot/OpenGameAgentGodot/OpenGameAgentRuntimeNode.cs:519-555 | between frames a waiting channel can go on if and only if a completion for the active epoch is queued or about to be; which runs lose it is what StrandsExactly says |
| GodotPumpStranded.ChannelCanStrand | engines/godot/OpenGameAgentGodot/OpenGameAgentRuntimeNode.cs:334-343 | a concrete reachable run after which the channel waits whatever happens short of leaving the tree, and the second delivery gets no receipt |
| GodotPumpQueue.StrandsExactly | engines/godot/OpenGameAgentGodot/OpenGameAgentRuntimeNode.cs:334-343 | a run from the initial state passes through a stranded state if and only if one of its steps wins the swap from Executing in an epoch other than the one its completion was checked against |
| GodotPumpQueue.MainThreadNeverStrands | engines/godot/OpenGameAgentGodot/GodotAuthoritativeActions.cs:55-65 | if completions without a world write enter on the main thread only, a waiting channel of any run always has a completion for its epoch queued or about to be |
| SseEvents.ReadConcat | packages/client/src/bounded-fetch.ts:163-217 | reading continues from where the first part stopped, wherever the bytes are cut |
| SseEvents.SseEventBound.Finish | packages/client/src/bounded-fetch.ts:151-160 | copies exactly the complete line behind the earlier output, without overrunning the buffer, and validates it |
| SseEvents.SseEventBound.TakeByte | packages/client/src/bounded-fetch.ts:167-213 | one turn of the byte loop, with CR, LF and CRLF, changes the state and writes the output as specified, within the buffer |
| SseEvents.SseEventBound.Transform | packages/client/src/bounded-fetch.ts:163-217 | one chunk: enqueues the complete lines (validating) or the chunk, or fails with the specified fault after the lines before it |
| SseEventLines.LinesAndRest | packages/client/src/bounded-fetch.ts:218-221 | when validating, the lines put out and the line that flush then puts out are together the bytes read |
| SseEventLines.ByteMeans | packages/client/src/bounded-fetch.ts:163-217 | each byte takes the state that describes a prefix to the one that describes the longer prefix, or stops because that byte fails |
| SseEventLines.ReadsByPosition | packages/client/src/bounded-fetch.ts:134-223 | the machine stops at the first byte that fails by the positional definition of lines and events (section 9.2.5 of the WHATWG HTML Standard), with that fault, and otherwise has released exactly the complete lines |
| SseEventLines.FailsOnlyOnLongEvents | packages/client/src/bounded-fetch.ts:146-150 | without a validator it fails if and only if some event exceeds the limit |
| SseEventLines.PipeIsWhole | packages/client/src/bounded-fetch.ts:134-223 | a stream of chunks fails where and as the joined bytes do, and when validating puts out the same |
| SseEventLines.ChunkingDoesNotMatter | packages/client/src/bounded-fetch.ts:134-223 | two cuts of the same bytes fail at the same byte with the same fault, and when validating put out the same |
| SseEventLines.SuccessCopies | packages/client/src/bounded-fetch.ts:134-223 | a stream that does not fail comes out byte for byte |
| DelegationLeases.RequiredExact | packages/delegation/src/in-memory-store.ts:269-274 | the lookup by key returns the record if and only if it belongs to the partition |
| DelegationLeases.CreateKeepsInv | packages/delegation/src/in-memory-store.ts:57-81 | creating keeps the invariant, including that live records per partition never exceed the maximum |
| DelegationLeases.SelectedHere | packages/delegation/src/in-memory-store.ts:212-237 | a purge selects only terminal records of its partition |
| DelegationLeases.PurgeKeepsInv | packages/delegation/src/in-memory-store.ts:212-237 | a purge keeps the invariant and leaves other records as they were |
| DelegationLeases.ApplyKeepsInv | packages/delegation/src/in-memory-store.ts:57-237 | every operation keeps the invariant (a lease exactly for a running record, tokens only of stored records) and moves records only as allowed: draft, child run and start time are write-once, attempts never decrease, terminal records never change |
| DelegationLeases.RunsKeepInv | packages/delegation/src/in-memory-store.ts:57-237 | so does every run |
| DelegationLeases.OnlyLatestTokenSucceeds | packages/delegation/src/in-memory-store.ts:137-201 | after every run from the empty store an operation under a token succeeds only with the token of the latest claim, and one that does not succeed changes nothing |
| DelegationLeases.ClaimFences | packages/delegation/src/in-memory-store.ts:104-124 | what a successful claim means in every valid store: the lease before it had run out, the new one is the token's, one record changed |
| DelegationLeases.RenewFences | packages/delegation/src/in-memory-store.ts:137-154 | a successful renewal had an unexpired lease and keeps it at least as long |
| DelegationLeases.BindFences | packages/delegation/src/in-memory-store.ts:156-165 | a successful binding had an unexpired lease, and no bound run is ever replaced |
| DelegationLeases.SettleFences | packages/delegation/src/in-memory-store.ts:167-194 | a successful settlement had an unexpired lease or was the same token's before, and leaves none |
| DelegationLeases.AbandonFences | packages/delegation/src/in-memory-store.ts:196-201 | a successful abandonment had an unexpired lease and leaves none |
| DelegationLeases.CancelFences | packages/delegation/src/in-memory-store.ts:203-210 | a successful cancellation ends work that had not ended and leaves neither a lease nor a settling token |
| DelegationLeases.SettlingRepeats | packages/delegation/src/in-memory-store.ts:167-194 | a successful completion or failure, repeated by the same token after any further operations, returns the same record and changes nothing while the record is stored |
| DelegationLeases.GoneStays | packages/delegation/src/in-memory-store.ts:57-81 | a delegation key that is gone is never used again |
| DelegationOutcomes.CreateMeans | packages/delegation/src/in-memory-store.ts:57-81 | creating replays the same draft, refuses another under its id, counts live records of the partition, and stores exactly the stated new record |
| DelegationOutcomes.ClaimMeans | packages/delegation/src/in-memory-store.ts:104-124 | a claim succeeds if and only if the work is open, the clock not behind it, the end ahead and no unexpired lease held; the lease is the token's, the owner's and ends as asked; the first claim sets the start time |
| DelegationOutcomes.RenewMeans | packages/delegation/src/in-memory-store.ts:137-154 | when a renewal succeeds and what it leaves: the same owner's lease to the new end, the record one revision on unless the end is the same |
| DelegationOutcomes.BindMeans | packages/delegation/src/in-memory-store.ts:156-165 | when a binding succeeds and what it leaves, with the errors for a lost lease and another run |
| DelegationOutcomes.SettleMeans | packages/delegation/src/in-memory-store.ts:167-194 | when a completion or failure succeeds, what it records, and that the same token's repetition changes nothing |
| DelegationOutcomes.AbandonMeans | packages/delegation/src/in-memory-store.ts:196-201 | when an abandonment succeeds and that it leaves pending work without a lease and nothing else changed |
| DelegationOutcomes.CancelMeans | packages/delegation/src/in-memory-store.ts:203-210 | when a cancellation succeeds, what it records, and which error tells which cause |
| DelegationOutcomes.PurgeMeans | packages/delegation/src/in-memory-store.ts:212-237 | a purge removes ended records of its partition from before the instant, at most limit, the longest unchanged first, and returns the keys of exactly those |
| InMemoryDelegationStore.InMemoryDelegationStore.CreateDelegation | packages/delegation/src/in-memory-store.ts:57-81 | keeps the invariant, capacity included, and leaves and returns what CreateMeans says |
| InMemoryDelegationStore.InMemoryDelegationStore.ClaimDelegation | packages/delegation/src/in-memory-store.ts:104-124 | keeps the store's invariant; a claim takes over only work whose lease ran out, under the new token and one attempt further, to the end that was asked for, exactly when ClaimMeans says, and changes nothing when it fails |
| InMemoryDelegationStore.InMemoryDelegationStore.FindRecord | packages/delegation/src/in-memory-store.ts:269-274 | the scan returns the record that RequiredExact describes |
| InMemoryDelegationStore.InMemoryDelegationStore.ActiveCount | packages/delegation/src/in-memory-store.ts:57-81 | the loop counts the partition's records that are not terminal |
| InMemoryDelegationStore.InMemoryDelegationStore.RenewLease | packages/delegation/src/in-memory-store.ts:137-154 | keeps the invariant; only the token of an unexpired lease renews, and never to an earlier end; leaves and returns what RenewMeans says |
| InMemoryDelegationStore.InMemoryDelegationStore.BindChildRun | packages/delegation/src/in-memory-store.ts:156-165 | keeps the invariant; only the token of an unexpired lease binds, and a bound run stays; leaves and returns what BindMeans says |
| InMemoryDelegationStore.InMemoryDelegationStore.Complete | packages/delegation/src/in-memory-store.ts:167-181 | keeps the invariant; only the token of an unexpired lease ends the work, or repeats its own ending and changes nothing; no lease is left; leaves and returns what SettleMeans says |
| InMemoryDelegationStore.InMemoryDelegationStore.Fail | packages/delegation/src/in-memory-store.ts:183-194 | the same with a failure code |
| InMemoryDelegationStore.InMemoryDelegationStore.AbandonLease | packages/delegation/src/in-memory-store.ts:196-201 | keeps the invariant; only the token of an unexpired lease gives the work back, and no lease is left; leaves and returns what AbandonMeans says |
| InMemoryDelegationStore.InMemoryDelegationStore.CancelDelegation | packages/delegation/src/in-memory-store.ts:203-210 | keeps the invariant; work that had not ended is ended whoever holds its lease, no lease is left to settle it with, and no other record changes; leaves and returns what CancelMeans says |
| InMemoryDelegationStore.InMemoryDelegationStore.PurgeTerminal | packages/delegation/src/in-memory-store.ts:212-237 | keeps the invariant; the loops select and remove what PurgeMeans says and return the keys |
| WorldbookActivation.FirstKeywordMatch | packages/characters/src/game-worldbook-context-source.ts:470-485 | the nested loops return the first keyword's first segment and charge one evaluation per comparison made, or fail for the budget |
| WorldbookActivation.MatchKeywords | packages/characters/src/game-worldbook-context-source.ts:437-468 | primary and secondary keywords with modes any, all and none match as specified, at the specified cost |
| WorldbookActivation.InitialPass | packages/characters/src/game-worldbook-context-source.ts:373-416 | the first loop activates constant and initially matched entries within the limits, or fails for the limit that was exceeded |
| WorldbookActivation.RecursivePass | packages/characters/src/game-worldbook-context-source.ts:373-416 | one round activates the entries that the scanned contents newly match |
| WorldbookActivation.StillMatches | packages/characters/src/game-worldbook-context-source.ts:373-416 | the check behind the last round tells whether another entry would match |
| WorldbookAnswer.ActivateEntries | packages/characters/src/game-worldbook-context-source.ts:373-416 | returns if and only if the limits permit the settled activation; each error names a limit that was exceeded, the recursion error only when the activation is not settled within the step limit. The answer holds no entry that its scope shuts out, is closed and, without none-secondaries, least, gives each entry once for its true reason, and falls in priority with positions rising among equals |
| WorldbookActivation.SettledStays | packages/characters/src/game-worldbook-context-source.ts:385-413 | a settled activation stays the same in every further round |
| WorldbookActivation.LimitsDoNotMatter | packages/characters/src/game-worldbook-context-source.ts:373-416 | all limits that let the activation return give the same entries |
| WorldbookClosure.MatchesWhenTriggered | packages/characters/src/game-worldbook-context-source.ts:428-485 | the search over segments matches recursively if and only if the phase allows it and the set of texts holds the keywords |
| WorldbookClosure.MatchesWhenStarted | packages/characters/src/game-worldbook-context-source.ts:418-426 | the scan matches an entry if and only if it is constant, or its phase is not recursive and the scan's texts hold its keywords |
| WorldbookAnswer.EligibleExact | packages/characters/src/game-worldbook-context-source.ts:599-609 | an entry is eligible if and only if its scope does not shut out the actor, miss a tag or meet an excluded one |
| WorldbookAnswer.RoundReasons | packages/characters/src/game-worldbook-context-source.ts:428-485 | the reason given for an entry names the first primary keyword that some segment contains and its first segment, of the scan or of the round that found it |
| WorldbookAnswer.HitCosts | packages/characters/src/game-worldbook-context-source.ts:470-485 | a search is charged for every keyword with every segment up to the first hit, and for all of them without one |
| WorldbookClosure.ScannedTexts | packages/characters/src/game-worldbook-context-source.ts:385-413 | a round scans exactly the contents of the recursive entries active so far |
| WorldbookClosure.SettledIsClosed | packages/characters/src/game-worldbook-context-source.ts:385-413 | an activation is settled if and only if its entries form a closed set |
| WorldbookClosure.RoundsStayInside | packages/characters/src/game-worldbook-context-source.ts:385-413 | without none-secondaries no round leaves any closed set |
| WorldbookClosure.AnswerIsLeast | packages/characters/src/game-worldbook-context-source.ts:373-416 | without none-secondaries the activation is settled if and only if its entries are the least set that holds the initial matches and is closed under recursive matching |
| Approvals.DecidingKeepsValid | packages/actions/src/approvals.ts:647-668 | a decision leaves a record that meets the record invariant |
| Approvals.ConsumingKeepsValid | packages/actions/src/approvals.ts:670-691 | a consumption does so if and only if its time is not before the decision |
| Approvals.ConsumptionIsExact | packages/actions/src/approvals.ts:670-691 | consuming needs an approved, unexpired record and exactly its operation, coordinate, intent, authority and revision; admission finds the expected revision on the consumed record if and only if the time was not before the decision |
| Approvals.DecideMeans | packages/actions/src/approvals.ts:647-668 | exactly which decisions are taken, and the reviewer, verdict, time and reason, or the lapse, that they record |
| Approvals.ConsumeMeans | packages/actions/src/approvals.ts:670-691 | exactly which consumptions are taken and what they record |
| Approvals.ExpireMeans | packages/actions/src/approvals.ts:379-390 | exactly when an approval expires and what that records |
| Approvals.RunsStayValid | packages/actions/src/approvals.ts:569-645 | every approval that a run leaves meets the record invariant if and only if no consumption of the run carried a time before its own record's decision |
| Approvals.ValidityMoves | packages/actions/src/approvals.ts:569-645 | an operation leaves all records valid if and only if they were and it is no such consumption |
| Approvals.RunsStayKeyed | packages/actions/src/approvals.ts:308-390 | every run keeps each approval under the key of its own valid request |
| Approvals.ConsumedOnce | packages/actions/src/approvals.ts:670-691 | over every run, whatever its times, no approval is consumed twice, and a consumed one stays consumed |
| Approvals.AdmissionRevisionStays | packages/actions/src/admission.ts:21-28 | admission accepts the revision that an approval had when approved, and still does once it is consumed if and only if the consumption did not come before the decision |
| Approvals.KeyBindsContent | packages/actions/src/approvals.ts:521-567 | two valid requests under one key differ in their times only |
| Approvals.EnsuringNeverConflicts | packages/actions/src/approvals.ts:308-328 | so ensuring a valid request never conflicts with a stored one |
| Approvals.InMemoryActionApprovalStore.EnsureApproval | packages/actions/src/approvals.ts:308-328 | keeps every record valid and under its key; a valid request always finds the approval of its own content or gets a pending one at revision 1 for the whole request, times included, and nothing else changes |
| Approvals.InMemoryActionApprovalStore.DecideApproval | packages/actions/src/approvals.ts:357-366 | keeps every record valid and under its key; only a pending approval is decided, before its expiry and otherwise expired, and afterwards no decision on it succeeds |
| Approvals.InMemoryActionApprovalStore.ConsumeApproval | packages/actions/src/approvals.ts:368-377 | keeps every record valid if and only if it does not consume before the decision; only an approved one is consumed, before its expiry, for its exact operation, content and authority, and afterwards no consumption of it succeeds |
| Approvals.InMemoryActionApprovalStore.ExpireApproval | packages/actions/src/approvals.ts:379-390 | keeps every record valid and under its key; only a pending approval past its expiry expires, and afterwards it can be neither decided nor consumed |
| ProviderAttempts.NextKeepsInv | packages/agent/src/provider-attempt.ts:29-139 | every call, sink reply and callback keeps the lifecycle invariant unless settle is re-entered |
| ProviderAttempts.RunsKeepInv | packages/agent/src/provider-attempt.ts:29-139 | so does every interleaving |
| ProviderAttempts.ReadMeans | packages/agent/src/provider-attempt.ts:76-134 | a log that reads in order has gapless request indices, at most one response per request behind it, and nothing behind a sink failure |
| ProviderAttempts.AttemptsAreOrderly | packages/agent/src/provider-attempt.ts:29-139 | over every interleaving without re-entrance at most one attempt is open, committed indices are 1, 2, 3 without gap or reuse, and the recorded log is orderly |
| ProviderAttempts.CleanExactly | packages/agent/src/provider-attempt.ts:29-139 | behind such a run, with or without a sink, a step keeps every further run without re-entrance orderly if and only if it is not a re-entrant settle |
| ProviderAttempts.NothingUnrecorded | packages/agent/src/provider-attempt.ts:76-134 | with a sink, over every interleaving without re-entrance, what counts as committed had its request recorded and what counts as settled its response |
| ProviderAttempts.NextAttemptCompletes | packages/agent/src/provider-attempt.ts:29-139 | between attempts the next one can always run to its end under the next index, recorded whole |
| ProviderAttempts.ReentrantSettleRecordsTwice | packages/agent/src/provider-attempt.ts:103-134 | settling again from inside the callback records the response twice |
| ProviderAttempts.ReentrantSettleHappens | packages/agent/src/provider-attempt.ts:103-134 | a single attempt reaches the state in which that is possible |
| ProviderAttempts.ReentrantSettleReusesIndex | packages/agent/src/provider-attempt.ts:103-134 | a concrete run with one re-entrant settle that ends with two attempts open and the indices 1, 2, 2 committed |
| ProviderAttempts.ReentrantSettleDropsAttempt | packages/agent/src/provider-attempt.ts:103-134 | without a sink both callbacks settle the attempt, and a newer one is dropped while it is open |
| ProviderAttempts.FailedPreparationBlocks | packages/agent/src/provider-attempt.ts:76-102 | once preparing a request threw, no step of any run changes the lifecycle again |
| ProviderAttempts.PreparationCanBlock | packages/agent/src/provider-attempt.ts:76-102 | a first attempt reaches that state |
| ExactToolRepeat.HasSortedName | packages/agent/src/exact-tool-repeat.ts:203-214 | the binary search agrees with membership |
| ExactToolRepeat.LessIsStrict | packages/agent/src/exact-tool-repeat.ts:203-214 | the comparison of names by code units is a strict order |
| ExactToolRepeat.TrailingRunIsLongest | packages/agent/src/exact-tool-repeat.ts:107-190 | the count the tracker refines is the length of the longest run of equal observed calls at the end of the history |
| ExactToolRepeat.ExactToolRepeatTracker.Observe | packages/agent/src/exact-tool-repeat.ts:130-165 | an observation extends the history by the calls passed over and by a non-exempt call; it terminates exactly at its threshold, advises exactly at the other, and blocks from then on until reset |
| ExactToolRepeat.ExactToolRepeatTracker.BeginAssistantMessage | packages/agent/src/exact-tool-repeat.ts:118-122 | calls of the message before that were never observed interrupt the run |
| ExactToolRepeat.ExactToolRepeatTracker.FinishAssistantMessage | packages/agent/src/exact-tool-repeat.ts:124-128 | so do those of the finished message |
| ExactToolRepeat.ExactToolRepeatTracker.Reset | packages/agent/src/exact-tool-repeat.ts:167-172 | forgets the history, termination included |
| ArtifactPages.PageAtBudget | packages/artifacts/src/artifact-service.ts:295-313 | the backward loop ends the page at the last code point boundary within the budget |
| ArtifactPages.FitArtifactPage | packages/artifacts/src/artifact-service.ts:249-293 | the search refuses exactly offsets inside a code point and requests too small for the next one, succeeds whenever the page of that one code point fits, and returns a non-empty page within both limits that ends at a boundary and that one more code point would make too long |
| ArtifactPages.NothingLongerFits | packages/artifacts/src/artifact-service.ts:249-293 | where shorter pages fit whenever longer ones do, such a page is the longest that fits |
| ArtifactPages.ChainReassembles | packages/artifacts/src/artifact-service.ts:249-293 | following nextOffsetBytes puts the artifact together byte for byte in finitely many pages |
| ArtifactPages.BoundaryBetween | packages/artifacts/src/artifact-service.ts:315-317 | in text encoded by section 3 of RFC 3629 a byte that is no continuation starts a code point |
| ArtifactPages.PageHoldsCodePoints | packages/artifacts/src/artifact-service.ts:249-313 | so a page of encoded text holds whole code points of it |
| ArtifactPages.FourBytesCover | packages/artifacts/src/artifact-service.ts:249-293 | a request for four bytes always covers the next code point |
| ToolResultText.SplitTextFits | packages/agent/src/tool-result-snapshot.ts:51-76 | any text of at most n UTF-8 bytes split over at most k parts encodes (escapes by section 7 of RFC 8259) within the derived content budget |
| ToolResultText.WholeTextFits | packages/agent/src/tool-result-snapshot.ts:78-88 | one such text fits the admission derived for a whole text result |
| ToolResultText.SplitBudgetIsLeast | packages/agent/src/tool-result-snapshot.ts:51-76 | some text of n bytes in k parts needs the whole content budget |
| ToolResultText.WholeBudgetIsLeast | packages/agent/src/tool-result-snapshot.ts:78-88 | and some text of n bytes the whole admission |
| ToolResultText.PrefixesGrow | packages/agent/src/tool-result-snapshot.ts:320-328 | a longer surrogate-safe prefix never encodes shorter, which is what the search needs |
| ToolResultText.TruncateToolErrorMessage | packages/agent/src/tool-result-snapshot.ts:308-336 | the binary search returns the message if it fits and otherwise a fitting prefix that no longer safe cut could replace; without two high surrogates in a row the cut is safe |
| ToolResultText.EveryCutIsSafe | packages/agent/src/tool-result-snapshot.ts:320-328 | every limit cuts a message without leaving a high surrogate at the end if and only if it has no two high surrogates in a row |
| ToolResultText.TruncationCanEndInHigh | packages/agent/src/tool-result-snapshot.ts:308-328 | a concrete message and limit whose truncation ends in a high surrogate |

## Left out

- Byte, depth and count limits on transcript records and streams, JSON normalization and identifier syntax: single checks that the model takes as passed.
- Media, provider replay data, final outputs and hydration of transcript messages: they travel with a message and decide nothing that the fold looks at.
- The agent loop that writes the transcript (`packages/agent/src/game-agent.ts`): it rests on a foreign event library that is not part of this model.
- SQLite stores, HTTP servers and clients, redirects and response selection around the event stream, DPAPI and image storage: I/O.
- Timers, abort signals, freezing and cloning: they collapse to value semantics; a deadline is compared with a clock parameter.
- ProviderAttempts.NextKeepsInv: the captured variables are a value, not fields of a class, because calls of several attempts and sink replies interleave; the identity check of the captured terminal is not modelled.
- GodotPumpSteps.NextKeepsInv: the node's fields are a value for the same reason; the model leaves out a nested engine call of `_Process`, and a node that exits the tree while an inspection or failure signal is on the stack; a background completion's comparison of its epoch and its reading of the deadline's start are one step.
- GodotPumpRuns.SucceededMeansRan: delivery retries and the connection loop appear only as the reply that a request finally gets.
- DelegationLeases.ApplyKeepsInv: a delegation's `get`, `list` and `assertLease` change nothing and are left out, and instants are assumed to be well-formed timestamps, so the text checks that `cancel` makes after it dropped the lease cannot fail.
- DelegationLeases.OnlyLatestTokenSucceeds: counters have no upper limit in the model.
- Approvals.ConsumedOnce: purging approvals, listing pending ones and the coordinator's waits are not modelled; the promise is for stores that were not purged.
- ActionEffects.EffectAtMostOnce: per admission, because a purge forgets the attempts of what it removes; per operation it needs the retention that `RetainedEffectAtMostOnce` requires. A game that applies one dispatch more than once by itself is not counted.
- TranscriptRestore.CrashesKeepOutcome: compares with a restore whose host answers alike for the calls that had started; what happens when it does not is what `CrashesAnswer` says.
- WorldbookActivation.ActivateEntries: capture of configuration and scans, and packing the activated entries into the context (`admitContext`), are left out; lower-casing is a parameter function.
- ArtifactPages.FitArtifactPage: the size of the finished result is a parameter function of the page; storing, retention and the integrity check of artifacts are left out.
- ToolResultText.SplitTextFits: sizes are unbounded, so the range errors for derived budgets beyond the host's limits are not modelled.
- Persona compilation, input and image projection and provenance aliases: they would only add easy members.
