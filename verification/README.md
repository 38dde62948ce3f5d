# SecureSwipe: what its evidence, retry and data-integrity code guarantees

This project models the parts of SecureSwipe that other parts rely on being right, and proves
what they promise. `dafny verify dfyconfig.toml` checks all of it.

## The durable profile (`Durable*.dfy`, `PostgresAudit.dfy`, `HashChain.dfy`)

Any number of callers, spread over any number of worker processes, run
`PostgresIdempotencyStore.execute_detailed`. `DurableProtocol` is a step machine: one step is one
statement, one lock, one connection or gate acquisition, one commit or abort of the database, one
return of the operation, one exception, one crash, or the passing of time. A caller owns two
sessions, because `fail` runs on a second connection while the COMMIT of the first may still be in
doubt. A lock is held by the live transactions whose work has taken it, so the lock tables are
read off the transactions. `owners` and `runs` are history: no step reads them.

`DurableInvariant` and `DurableSteps` give the inductive invariant. From it follow:

- every reachable state passes `verify_audit_chain`; completed keys and events are in bijection;
- one owner for each key over a whole run, also when the first was lost, and at most one operation;
  all results of a key agree;
- completed and failed rows never change again, so the `fail` that follows a lost COMMIT response
  does no harm;
- no waits-for cycle, and a session that waits for nobody can always take its next step;
- every run is a run of an atomic specification (a map and an append-only list);
- what a caller is told is what the stored row says (`DurableOutcomes`), and from every reachable
  state, whatever has become of the others, a retry of a completed key can get its result, a first
  request and an unexpired owner can succeed, and a failing owner can mark its row
  (`DurableService`).

Two results are negative, and each comes with the exact condition:

- `docs/ARCHITECTURE.md:136` calls the stale state terminal. A `stale` answer of `reserve`, read
  under FOR SHARE, is final. One read by the unlocked poll of `wait_for_reservation` is not
  (`PolledStaleIsNotFinal` gives the run): an expired key can still complete if and only if a
  completion is past its row lock and has not ended (`ExpiredCompletesIff`, as long as such a
  completion can still build an event whose hash repeats no committed one).
- `verify_audit_chain` runs four statements, each with a snapshot of its own: on an autocommit
  connection, or at startup in one transaction at the default level READ COMMITTED
  (api/postgres_idempotency.py:312-327). Beside live completions it can reject although every single state verifies
  (`VerifierCanFailSpuriously`); it accepts if and only if no completion committed between its
  first and its third statement (`VerifierAcceptsIff`).

## The local profile (`Local*.dfy`, `Admission.dfy`)

`LocalAudit` is the NDJSON log with its anchor and the verifier, at the level of bytes and line
breaks; `LocalEvidence` proves tamper evidence and crash atomicity; `LocalWriter` is the `AuditLog`
class over a directory with two files and an operating system that may fail or write short at any
point; `LocalCodec` shows that an encoding as these modules assume it exists; `LocalRegistry` is the in-process `IdempotencyRegistry`; `LocalRun` puts them together in the
order of the `/v1/predict` and `/v1/predict/batch` routes, over whole runs of one process, and
`LocalRestarts` follows the same files through any number of processes.
`Admission` is the concurrency gate and the shielded workers that keep their slot.

Negative results with their exact conditions:

- `bytes.splitlines` also ends lines at CR and CR LF. Rewriting every LF of a verified log as
  CR LF changes the file and goes unnoticed (`LineEndingsGoUnnoticed`); the events determine the
  bytes if and only if the file has no carriage return (`BytesDeterminedIff`).
- `append_inference` does not look for the request identifier in the log. A complete append leaves
  files that verify if and only if no old event has that identifier with one of the new indexes
  (`CompletedAppendVerifiesIff`). The registry supplies this within one process that is asked only
  for identifiers its log had not seen at start; a retry after a restart does not have it
  (`RetryAfterRestartBreaksLog` is the run). Over any number of processes the files verify if and
  only if no request was appended that was logged already, and no append was left in part
  (`FilesVerifyIff`).

Once a client was released with a result, every later client with its identifier and input is
released with the same (`RetriesAreReleased`), and what was released stands in the log, decision for
decision (`ReleasedIsInTheLog`).

An append that stops with some of its bytes in the log is the one thing that takes the files of a
process out of step with its log, and it ends appending for good (`RunKeepsLogVerifiable`,
`TraceIsFrozen`).

## Smaller cores

`Migrations` (loading, validating and applying, with any number of runners and crashes),
`Scheduler` (bounded refill), `Descendants` (process closure), `Quarantine` with `SortedList`
(row hashes, multiset digest, overlap), `Curation` (exact duplicates), `TimeRoles` and
`NearestRank` with `SortedReals`.

Negative results with their exact conditions:

- `load_migrations` accepts two migrations of one name (`RepeatedNameLoads`), the history table does
  not. From whatever state earlier runners have left, an apply can finish if and only if the names
  are distinct and the history is not longer than the list (`ApplyCanFinishIff`), and a check under
  the same condition, after somebody has applied (`CheckCanFinishIff`, `CheckPassesIff`).
- The quarantine hashes float bits, and 0.0 and -0.0 differ in bits. A frame is noticed if and only
  if one of its rows has the values of a locked row and no zero of another sign than that row
  (`SameNumbersNoticedIff`; `SignedZeroIsAccepted` is a frame that gets through).

## Conventions

A SHA-256 digest stored as 64 hexadecimal digits is the number below 16^64 that they write; the
CHECK constraints of the migrations and the pattern checks of the code exclude everything else. Hash
functions are parameters, and nothing is assumed of them: where a theorem needs two hashes to
differ, it either returns the two colliding inputs or says in a premise which inputs must not
collide. `CodecExists` shows, by numbering (`Numbering`), that the premise on encodings can be met.
A char stands for one byte. Doubles are their 64 bits (`Float`, which also says what number the bits
stand for) where bits or ranges matter, and a JSON number in an event is a finite double or an
integer, as `_validate_event` takes both. Event identifiers, clocks and scores are parameters of the
steps.

## Model

| member | source | states |
|---|---|---|
| `HashChain.SameAnchorSameEntries` | api/postgres_audit.py:228-237 | two linked chains with one length and one head are equal entry for entry, or some index shows two contents with one hash |
| `PostgresAudit.ValidateEventRow` | api/postgres_audit.py:155-178 | a stored event is accepted exactly when its sequence is positive, its derived columns are those of its content, and it links to the expected predecessor |
| `PostgresAudit.InconsistentCountZero` | api/postgres_audit.py:239-262 | the FULL JOIN selects no line exactly when completed rows and events match one to one in key, request digest, response digest, document and receipt |
| `PostgresAudit.VerifyAuditChain` | api/postgres_audit.py:181-270 | the verifier accepts exactly the sound chains (one head, only the primary chain, contiguous, linked, head equal to the last event, rows and events agreeing) and reports count and head |
| `PostgresAudit.SameHeadSameEvents` | api/postgres_audit.py:228-237 | two event tables that verify against one head are the same, or a colliding pair of documents is shown |
| `PostgresAudit.SameHeadSameRows` | api/postgres_audit.py:218-262 | two databases that verify against one head have the same keys completed, with the same digest, response, response hash and receipt, or a collision is shown |
| `DurableSteps.StepKeepsInv` | api/postgres_idempotency.py:440-811 | every step (statement, lock, commit, abort, error, crash, tick) of every caller keeps the inductive invariant on rows, events, head, locks, pool and callers |
| `DurableSteps.ReachableInv` | api/postgres_idempotency.py:829-910 | so every state reached by any interleaving satisfies it |
| `DurableSteps.CommitCompletionDb` | api/postgres_idempotency.py:671-755 | committing an event built on the head, the completed row and the new head together keeps the chain intact and rows and events matching |
| `DurableAgreement.ReachableStateVerifies` | api/postgres_audit.py:228-262 | every reachable committed state passes the full-chain verifier, also after aborted completions |
| `DurableAgreement.CompletedKeysMatchEvents` | api/postgres_idempotency.py:656-755 | a key is completed if and only if it has an event; it has exactly one, and the two agree |
| `DurableAgreement.RunLater` | api/postgres_idempotency.py:701-771 | in every later state the rows keep digest and expiry, completed and failed rows are unchanged, events are only appended, returned results stay |
| `DurableAgreement.OneOwnerPerKey` | api/postgres_idempotency.py:457-496 | an owner at one moment of a run and an owner of the same key at any later moment are one caller, even if the first crashed or failed in between; the operation of a key is started at most once |
| `DurableAgreement.ResultsAgree` | api/postgres_idempotency.py:829-888 | all successes of a key have one response, one receipt and one request digest, and at most one is not a replay |
| `DurableAgreement.ReceiptsAreInTheChain` | api/postgres_idempotency.py:671-769 | a success's receipt is the hash of a committed event with its key, digest and response |
| `DurableAgreement.CompletedSurvivesFail` | api/postgres_idempotency.py:786-811 | after a committed completion whose client sees a fault, the response, hash and receipt stay for ever and the update of `fail` matches no row |
| `DurableAgreement.UpdatesMatchOneRow` | api/postgres_idempotency.py:707-755 | under the row and head locks the row update and the head compare-and-set each match exactly their row: both error branches are unreachable |
| `DurableAgreement.OwnerRefusedOnlyWhenExpired` | api/postgres_idempotency.py:625-655 | an owner that locks its row finds it reserved with its digest; it is refused if and only if the reservation has expired |
| `DurableAgreement.EventInsertConflicts` | api/postgres_idempotency.py:671-705 | the event insert violates a constraint if and only if the fresh identifier or the new hash repeats one; key and sequence never do |
| `DurableAgreement.ReadersFindTheRow` | api/postgres_idempotency.py:400-438 | readers never miss the row nor find a corrupt response; they raise exactly for another digest, and only in `reserve`, and otherwise see exactly what the row holds |
| `DurableOutcomes.PollAnswers` | api/postgres_idempotency.py:549-577 | a poll returns the stored result as a replay, raises for a failed or an expired row, and goes on waiting exactly while the reservation is unexpired |
| `DurableOutcomes.ShareAnswers` | api/postgres_idempotency.py:848-875 | `reserve` answers a retry as the row said when it was read, whatever is done before its commit is acknowledged |
| `DurableOutcomes.OtherDigestConflicts` | api/postgres_idempotency.py:400-405 | `reserve` raises the conflict at once if and only if the row has another digest |
| `DurableOutcomes.OwnerIsAnswered` | api/postgres_idempotency.py:878-888 | an acknowledged completion returns the owner's own response and the stored receipt, not as a replay |
| `DurableOutcomes.EventDocumentsCompletion` | api/postgres_idempotency.py:671-705 | the inserted event is the next of the chain, with the given identifier and time, for the owner's request and response |
| `DurableOutcomes.OwnerStartedOnce` | api/postgres_idempotency.py:878-880 | while a caller is the owner its operation has been started exactly once |
| `DurableOutcomes.StatementsNeedAConnection` | api/postgres_idempotency.py:246-260 | every statement is run by a caller with a connection of its worker's pool, those of a completion also with the worker's gate |
| `DurableOutcomes.ReservationLasts` | api/postgres_idempotency.py:457-475 | as long as a caller owns its key the row expires exactly the lifetime after its insert, in every later state |
| `DurableOutcomes.FailureIsRecorded` | api/postgres_idempotency.py:786-811 | once `fail` is acknowledged the row is failed, or was completed before, but never reserved; the owner raises its own error |
| `DurableOutcomes.ErrorsAreRaised` | api/postgres_idempotency.py:889-895 | an error in `fail` does not hide the owner's; one of a caller that owns nothing ends its call |
| `DurableService.ReplaySucceeds` | api/postgres_idempotency.py:829-867 | a retry of a completed key that finds a free connection gets the stored result by its own steps, and nothing else changes |
| `DurableService.ReplayCanSucceed` | api/postgres_idempotency.py:829-867 | from every reachable state with the key completed, at every worker with a pool of at least one, a new caller with its digest can reach that success |
| `DurableService.OwnerCanSucceed` | api/postgres_idempotency.py:878-888 | from every reachable state an unexpired owner can reach its success: the next event, the completed row and the result agree |
| `DurableService.FirstRequestCanSucceed` | api/postgres_idempotency.py:829-888 | from every state without a row a new caller can reserve the key, run and succeed |
| `DurableService.FailureCanBeRecorded` | api/postgres_idempotency.py:786-811 | from every reachable state an owner on its way to `fail` can mark its reserved row failed, also with its completion in doubt |
| `DurableService.ErrorCanBeRecorded` | api/postgres_idempotency.py:889-895 | so can an owner that meets an error anywhere from its operation to its completion |
| `DurableStaleness.LockedStaleIsFinal` | api/postgres_idempotency.py:478-496 | a `stale` answer read under FOR SHARE means that the key never completes in any later state |
| `DurableStaleness.DeadNeverCompletes` | api/postgres_idempotency.py:637-655 | a failed key, or an expired one without a completion under way, never completes |
| `DurableStaleness.MayCompleteOrigin` | api/postgres_idempotency.py:625-655 | only the row lock brings a completion under way, and only when its checks pass |
| `DurableStaleness.CanFinish` | api/postgres_idempotency.py:656-771 | a completion past its row lock that has its event, or for which some identifier and time give one on the present head that repeats nothing committed, can be driven to its commit |
| `DurableStaleness.ExpiredCompletesIff` | api/postgres_idempotency.py:509-577 | while the completions of a key can build such an event, its expired reservation can still complete if and only if a completion is past its row lock and has not ended |
| `DurableStaleness.ExpiredNeedsCompletion` | api/postgres_idempotency.py:509-577 | without a completion past its row lock an expired reservation never completes, whatever the hashes |
| `DurableScenario.PolledStaleIsNotFinal` | api/postgres_idempotency.py:549-577 | for every pool size and lifetime of at least one there is a run in which the unlocked poll raises stale and the key completes afterwards |
| `DurableStaleness.VerifierAcceptsIff` | api/postgres_audit.py:181-262 | with its four statements at four moments of a run, the verifier accepts if and only if no completion committed between the first and the third |
| `DurableScenario.VerifierCanFailSpuriously` | api/postgres_audit.py:181-262 | for every pool size and lifetime of at least one there is a run whose states all verify but whose verifier reports a broken chain |
| `DurableDeadlock.HoldersAreFurtherAlong` | api/postgres_idempotency.py:246-296 | a session that holds what another waits for waits, if at all, for something later in the order gate, connection, row, head |
| `DurableDeadlock.NoDeadlock` | api/postgres_idempotency.py:453-490 | no reachable state has a waits-for cycle of any length |
| `DurableDeadlock.SomeoneCanMove` | api/postgres_idempotency.py:617-667 | from any session the waits-for edges lead, in at most four, to one that waits for nobody |
| `DurableDeadlock.WaitsForNobodyMoves` | api/postgres_idempotency.py:617-667 | a session that wants or holds something and waits for nobody has an enabled next step |
| `DurableDeadlock.CompletionsLeaveAConnection` | api/postgres_idempotency.py:246-260 | completions alone never exhaust a worker's pool of two or more connections |
| `DurableRefinement.StepRefines` | api/postgres_idempotency.py:590-784 | every step is one allowed operation of the atomic map-and-log specification, or leaves it alone |
| `DurableRefinement.CompletionRefines` | api/postgres_idempotency.py:656-755 | the commit of a completion flips the entry, appends the specification's next event and advances the head at once |
| `DurableRefinement.RunRefines` | api/postgres_idempotency.py:590-811 | every run, with any interleaving, abort and crash, is a run of the specification |
| `DurableRefinement.ReachableRefines` | api/postgres_idempotency.py:735-755 | map and log reached from the empty tables are ones the specification reaches, and the head row is the end of the log |
| `DurableRefinement.ResultsRefine` | api/postgres_idempotency.py:829-888 | a success carries what the specification's map says for its key and digest |
| `LocalAudit.SplitAppend` | api/audit.py:219-226 | newline framing: what follows a line feed is split on its own |
| `LocalAudit.SplitJoin` | api/audit.py:219-226 | lines without CR and LF, each ended by LF, are read back as they were |
| `LocalAudit.JoinSplit` | api/audit.py:219-226 | a terminated file without CR is the join of its lines |
| `LocalAudit.LineRejected` | api/audit.py:226-251 | a line the loop rejects is in no sound log with these lines |
| `LocalAudit.ScanLines` | api/audit.py:223-251 | the loop accepts exactly the lines of sound events (valid, canonical, chained, no identifier and no request-index pair twice) and returns their head |
| `LocalAudit.AnchorExact` | api/audit.py:258-272 | exactly the canonical anchor line with this count and head is accepted |
| `LocalAudit.InUnitIff` | api/audit.py:182-190 | scores and thresholds are accepted exactly as numbers from zero to one, by what their bits stand for |
| `LocalAudit.VerifyAuditLog` | api/audit.py:202-273 | the verifier accepts exactly the files that hold sound events and their anchor, and reports their count and head |
| `LocalCodec.CodecExists` | api/audit.py:76-114 | the premise on encodings (read back, no raw line break) can be met by an encoding of all events and anchors |
| `LocalCodec.AcceptableRequestExists` | api/audit.py:347-355 | there is a request that can be appended |
| `LocalEvidence.SameAnchorSameLog` | api/audit.py:223-273 | two logs that verify against one anchor hold the same events, or a colliding pair is shown: mutation, deletion, insertion and reordering are noticed |
| `LocalEvidence.BytesDeterminedIff` | api/audit.py:219-233 | the events determine the bytes of a verified log if and only if it has no carriage return |
| `LocalEvidence.LineEndingsGoUnnoticed` | api/audit.py:219-233 | rewriting LF as CR LF gives a different log that verifies against the same anchor |
| `LocalEvidence.NewEventsLinked` | api/audit.py:365-397 | the new events are chained onto the old head, and the new head is the hash of the last |
| `LocalEvidence.DecisionOkIff` | api/audit.py:182-190 | a decision is refused exactly for an empty model version or a score or threshold that is no number from zero to one |
| `LocalEvidence.AppendVerifiesIff` | api/audit.py:357-423 | after a whole append the files verify, with the old events and the new, if and only if the identifiers are fresh and no old event has this request and one of these indexes |
| `LocalEvidence.CrashLeavesOldNewOrError` | api/audit.py:276-315 | whatever prefix of the new bytes is on disk, with either anchor, the verifier reports exactly the old events, exactly the new, or an error |
| `LocalEvidence.HalfAppliedWriterIsStuck` | api/audit.py:357-363 | a writer whose append stopped half way never again finds the files it remembers |
| `LocalWriter.AuditLog.Open` | api/audit.py:321-335 | a log is opened if and only if its files verify, and their count and head are remembered |
| `LocalWriter.AuditLog.WriteAll` | api/audit.py:276-282 | a prefix of the bytes is appended, and it succeeds, with all of them, exactly when the writes take them all |
| `LocalWriter.AuditLog.BuildEvents` | api/audit.py:365-397 | builds the lines, receipts and head of exactly the new events, or refuses a bad decision |
| `LocalWriter.AuditLog.CheckInSync` | api/audit.py:357-363 | accepts exactly the files the writer remembers |
| `LocalWriter.AuditLog.Persist` | api/audit.py:399-420 | it succeeds exactly when the log opens, takes all bytes and syncs and the anchor is replaced, and then leaves all bytes and the new anchor; failure leaves a prefix, and the new anchor only after all of it |
| `LocalWriter.AuditLog.AppendInference` | api/audit.py:337-423 | it succeeds exactly for an acceptable request on files in sync while nothing goes wrong in the system, and then each decision has an event that states its score, threshold, verdict, model and fingerprint, its request, key and time, chained onto the last, with count, head and receipts advanced; it is refused without a trace exactly for another request or other files, with the error for its arguments, for files that do not verify, for files changed outside, or for a decision; else it is interrupted |
| `LocalWriter.CompleteIffDocumented` | api/audit.py:364-423 | an append is complete if and only if the request is acceptable and exactly one event for each decision, stating it, was chained onto the log |
| `LocalWriter.InterruptedWriterRefuses` | api/audit.py:357-363 | after an interruption that left a trace, no events make the files in sync with the writer |
| `LocalRegistry.IdempotencyRegistry.Reserve` | api/audit.py:448-461 | first request of an identifier owns a new entry, same input replays the current one, other input conflicts |
| `LocalRegistry.IdempotencyRegistry.Complete` | api/audit.py:471-476 | publishes the owner's result in its own entry and nowhere else |
| `LocalRegistry.IdempotencyRegistry.Fail` | api/audit.py:478-486 | sets the error of the owner's entry and drops it from the dictionary only if it is still the current one |
| `LocalRun.StepKeepsInv` | api/main.py:830-937 | reserve, score, append and complete, fail and replay, by any number of clients with failures anywhere, keep the registry, log and client invariant |
| `LocalRun.RunKeepsLogVerifiable` | api/audit.py:337-423 | over a run each request has at most one complete append; the files hold exactly the old events and the appended ones if and only if no append stopped with some of its bytes in the log; after one that did, no append completes |
| `LocalRun.TraceIsFrozen` | api/audit.py:357-363 | from an append that left a trace on, files, remembered anchor, log and counts never change |
| `LocalRun.ReleasedIsInTheLog` | api/main.py:839-883 | what a client got, first hand or replayed, is in the log as consecutive events under its identifier, key and digest, each with the score, threshold, verdict, model and fingerprint of its decision, and was appended once |
| `LocalRun.ReleasesAgree` | api/audit.py:448-476 | all clients released under one identifier sent one input and got one result, at most one not as a replay |
| `LocalRun.RetriesAreReleased` | api/audit.py:448-469 | once a client was released, every client that arrives later with its identifier and input is released with that very result, as a replay, by its own two steps, whatever others do before and between |
| `LocalRun.WakeGives` | api/audit.py:463-469 | a waiting client is given the result of a published entry as a replay, and raises for a failed one |
| `LocalRun.PublishGives` | api/main.py:864-883 | an owner that publishes is given its own decisions, not as a replay, and the hashes of the events logged for them, each stating its decision |
| `LocalRun.OwnerIsReleased` | api/main.py:839-883 | while no append left a trace an owner can publish any acceptable request that it scored |
| `LocalRun.ArrivalIs` | api/audit.py:448-461 | a first request owns a new entry, a retry waits for the current one, another input raises and changes nothing |
| `LocalRun.FailedIsForgotten` | api/audit.py:478-486 | once an owner has failed the next request with its identifier owns a new entry |
| `LocalRun.RunKeepsPublished` | api/audit.py:471-486 | a published entry keeps its result and stays the current one of its identifier for the rest of the run |
| `LocalRun.OwnersAreAlone` | api/audit.py:448-461 | while one client runs the operation no other with its identifier runs or was released |
| `LocalRun.NobodyWaitsInVain` | api/audit.py:463-486 | a waiting client can wake at once, or after at most two steps of one owner of its entry, with which that owner gives up |
| `LocalRun.NothingBlocksGivingUp` | api/audit.py:478-486 | no step of another client disables a step with which an owner gives up |
| `LocalRun.PublishKeepsLog` | api/main.py:864-881 | the owner's append leaves files in sync with the log extended by its events, whose hashes are the receipts |
| `LocalRestarts.CompletedAppendVerifiesIff` | api/audit.py:357-423 | without the premise on identifiers: a complete append verifies if and only if the log had no event of this request with these indexes |
| `LocalRestarts.RetryAfterRestartBreaksLog` | api/audit.py:337-423 | the failing input: a process appends a request, a second one opens its files, which verify, and completes an append of the same request; the files verify no more |
| `LocalRestarts.InterruptionDecides` | api/audit.py:276-315 | what an interrupted append leaves verifies if and only if it wrote nothing, or all of a request that was not logged; and the process that wrote something never appends again |
| `LocalRestarts.FilesVerifyIff` | api/audit.py:318-423 | over any number of processes on the same files, with crashes anywhere, the files verify at the end if and only if no request was appended that was logged already and no append was left in part |
| `LocalRestarts.NothingIsGood` | api/audit.py:214-217 | a process that finds neither file is a start for that |
| `Admission.ConcurrencyGate.Create` | api/main.py:133-138 | a gate exists if and only if the limit is at least one, and starts empty |
| `Admission.ConcurrencyGate.TryAcquire` | api/main.py:140-145 | takes a slot exactly below the limit, else changes nothing |
| `Admission.ConcurrencyGate.Release` | api/main.py:147-149 | gives one slot back, clamped at zero |
| `Admission.StepKeepsInv` | api/main.py:157-190 | admission, task creation and its failure, timeout, cancellation, completion and callback keep the counter equal to the attempts that hold a slot |
| `Admission.InFlightCountsHolders` | api/main.py:140-155 | over every run the counter is the number of holders and within the limit, and no more workers run than the limit |
| `Admission.SlotReleasedExactlyOnce` | api/main.py:170-187 | a slot is released at most once, only if taken, never while its worker runs, and has been released exactly when it is no longer held |
| `Admission.ClampNeverActs` | api/main.py:147-149 | every release finds a slot in flight, so `max(0, ...)` never changes the value |
| `Admission.RefusedIffFull` | api/main.py:167-168 | a request is refused if and only if as many attempts as the limit hold slots |
| `Admission.QuietGateIsEmpty` | api/main.py:178-186 | when all workers finished and all callbacks ran the counter is zero |
| `Admission.AlwaysAnswersAgain` | api/main.py:157-190 | no slot leaks: from every moment of every run the attempts can give all slots back, and then a new request is answered and gives back its own |
| `Scheduler.RunBoundedRequests` | scripts/run_p1_scale_benchmark.py:797-828 | for any completions at each wait: every request is issued once in order, outcomes are those of a permutation, pending never exceeds the width, the reported maximum is min(concurrency, n); it raises exactly if a request fails |
| `Scheduler.OutcomesArePermutedResults` | scripts/run_p1_scale_benchmark.py:818-828 | the outcomes are, as a multiset, the results of all requests |
| `Scheduler.RefillKeepsBalance` | scripts/run_p1_scale_benchmark.py:820-827 | one completion and its refill keep every issued request either pending or done, and the window full while requests remain |
| `Descendants.Closure` | scripts/run_p1_scale_benchmark.py:269-276 | the `changed` loop ends with exactly the root and the listed processes whose parent chain reaches it, for any dictionary order and with parent cycles |
| `Descendants.DescendantsAreLeast` | scripts/run_p1_scale_benchmark.py:269-276 | that set is the least one with the root that contains the listed children of its members |
| `Descendants.VerifyWorkerCount` | scripts/run_p1_scale_benchmark.py:665-697 | passes exactly when the process runs (one worker) or as many worker processes as requested descend from it |
| `Migrations.LoadMigrations` | api/postgres_migrations.py:40-60 | a listing loads exactly when it is not empty, every name matches, every file is UTF-8 and versions are 1, 2, ... in order, into the parsed files; the decoding error is raised exactly when the first bad file has a good name |
| `Migrations.MigrationNamesItsFile` | api/postgres_migrations.py:42-54 | four digits of the version, the name and the suffix give the file name back, and the checksum is that of its content |
| `Migrations.FileOfMigration` | api/postgres_migrations.py:42-54 | every version of four digits and name of lower-case words is loaded from its file name |
| `Migrations.LoadsIffVersionsComplete` | api/postgres_migrations.py:42-60 | for a sorted directory that is: all names match and each version from 1 to the number of files occurs |
| `Migrations.RepeatedNameLoads` | api/postgres_migrations.py:40-60 | the failing input: two files of one name in order load |
| `Migrations.ValidIffPrefix` | api/postgres_migrations.py:201-213 | a recorded history is valid if and only if it is a prefix of the migrations |
| `Migrations.InspectionGives` | api/postgres_migrations.py:238-247 | without a history table a check is refused and an apply makes the table |
| `Migrations.ValidationGives` | api/postgres_migrations.py:248-256 | a runner is refused exactly for a history that is no prefix, or without leave to apply for an incomplete one, and never for a complete one |
| `Migrations.StepKeepsInv` | api/postgres_migrations.py:216-280 | every step of any runner (lock, bootstrap, validate, execute, commit, conflict, finish, failure) keeps the history a prefix and the runners in order |
| `Migrations.HistoryIsPrefix` | api/postgres_migrations.py:201-271 | in every run the recorded history is a prefix of the migrations and their statements were committed once each, in order |
| `Migrations.OneRunnerAtATime` | api/postgres_migrations.py:236-280 | at most one runner is between taking the advisory lock and ending |
| `Migrations.CheckModeChangesNothing` | api/postgres_migrations.py:241-255 | only a runner that applies changes the database, and only by adding |
| `Migrations.FinishedMeansComplete` | api/postgres_migrations.py:256-271 | a finished runner leaves its whole list recorded and executed, and reports consecutive versions up to its last |
| `Migrations.FurtherApplyIsEmpty` | api/postgres_migrations.py:249-271 | a runner that connects once its list is recorded, and finishes, reports nothing applied |
| `Migrations.ReportsThePending` | api/postgres_migrations.py:249-271 | a finished runner reports exactly the versions that were pending when it read the history |
| `Migrations.ApplyCanFinishIff` | api/postgres_migrations.py:216-280 | from every state that any runners, crashed or not, can have left, a new runner can finish applying if and only if no two of its migrations share a name and the history is not already longer |
| `Migrations.CheckPassesIff` | api/postgres_migrations.py:241-271 | with the lock free and nobody else moving, a new check finishes if and only if the history table exists and records exactly its migrations |
| `Migrations.CheckCanFinishIff` | api/postgres_migrations.py:216-280 | from every state that any runners can have left, a new check can finish if and only if the history can become exactly its release, that is if names are distinct and the history is not longer; it reports nothing |
| `Quarantine.RowBytesInjective` | src/data/historical_quarantine.py:114-127 | the digested bytes of two valid rows are equal if and only if float bits and class are |
| `Quarantine.LittleEndianIs` | src/data/historical_quarantine.py:118-126 | the eight bytes of a value are its bits, the least significant byte first |
| `Quarantine.DomainsApart` | src/data/historical_quarantine.py:114-139 | what is digested for a row is never what is digested for a list |
| `Quarantine.CanonicalRowHashes` | src/data/historical_quarantine.py:114-127 | a valid frame gives the hash of each row in order, any other is refused |
| `Quarantine.MessageIffMultiset` | src/data/historical_quarantine.py:130-139 | two lists of hashes are digested as one message if and only if they are equal as multisets |
| `Quarantine.RowHashesChecksum` | src/data/historical_quarantine.py:130-139 | the loop digests that message; a malformed hash is refused |
| `Quarantine.ChecksumIffMultiset` | src/data/historical_quarantine.py:130-139 | equal multisets have one checksum, and equal checksums mean equal multisets or a collision of the two messages |
| `Quarantine.PublishedManifestLoads` | src/data/historical_quarantine.py:271-363 | the manifest built from locked rows is valid; an approved anchor of its counts and checksum is accepted if and only if the rows are 42722, 74 of them fraud |
| `Quarantine.AnchorPinsManifest` | src/data/historical_quarantine.py:320-336 | a valid manifest that matches the anchor of locked rows is exactly theirs, hashes and counts, or two messages collide |
| `Quarantine.RequireNoHistoricalTestOverlap` | src/data/historical_quarantine.py:866-879 | accepts exactly a valid frame, under a valid anchor and a valid manifest that matches it, none of whose hashes is quarantined; else reports how many are |
| `Quarantine.AcceptedIffNoCommonRow` | src/data/historical_quarantine.py:866-879 | against the manifest of locked rows a frame passes if and only if none of its rows has the bits and class of a locked one |
| `Quarantine.AnchoredOverlapIsExact` | src/data/historical_quarantine.py:788-879 | for every valid manifest that matches the anchor of the locked rows, a frame passes if and only if no row of it is bit for bit a locked one, or the messages of two manifests collide |
| `Quarantine.SameNumberIff` | src/data/historical_quarantine.py:118-126 | finite values are taken as one number exactly when their bits stand for one |
| `Quarantine.SameNumbersNoticedIff` | src/data/historical_quarantine.py:866-879 | against any locked rows a frame is noticed if and only if one of its rows has the values of a locked row and no zero of another sign |
| `Quarantine.ZeroCanChangeSign` | src/data/historical_quarantine.py:118-126 | two valid rows with the same values and different digested bytes |
| `Quarantine.SignedZeroIsAccepted` | src/data/historical_quarantine.py:866-879 | the failing input: under a valid anchor of 42722 rows and its manifest, a frame with all the values of a locked row, one zero signed, is accepted |
| `SortedList.OrderedUnique` | src/data/historical_quarantine.py:132 | the elements determine the sorted list |
| `Curation.AcceptedIffFunction` | src/data/curation.py:174-205 | a frame is accepted if and only if it is valid and Class is a function of the features; the check of the result never fails |
| `Curation.KeptAreFirstOccurrences` | src/data/curation.py:199-201 | the result is the subsequence of first occurrences in input order |
| `Curation.KeptVectors` | src/data/curation.py:199-202 | the same feature vectors, none of them twice |
| `Curation.EveryRowIsStillThere` | src/data/curation.py:182-201 | every row of an accepted frame is still in the result |
| `Curation.CurateTwice` | src/data/curation.py:174-220 | curating the result changes nothing and removes nothing |
| `Curation.RowsConserved` | src/data/curation.py:203-219 | raw rows are curated plus removed legitimate plus removed fraud, and so for each class |
| `Curation.OneRowForEachVector` | src/data/curation.py:209-217 | as many curated rows as feature vectors; no duplicate group if and only if the frame is returned as it is |
| `Curation.GroupsAreCounted` | src/data/curation.py:183-217 | the number of duplicate groups is that of the vectors of multiplicity at least two; a frame is refused with the number of vectors that occur with both classes, when there is any |
| `TimeRoles.BlocksCover` | scripts/run_development_training.py:100 | the twenty blocks are all the times |
| `TimeRoles.BlockStartIs` | scripts/run_development_training.py:100 | the first b blocks hold b times n / 20 of them, and one more for each that is among the first n % 20 |
| `TimeRoles.RoleSizes` | scripts/run_development_training.py:100-106 | the roles hold as many times as the first ten of twenty blocks, the next three, the next three and the last four |
| `TimeRoles.RolesAreTheTimes` | scripts/run_development_training.py:100-106 | the four roles in order are all the times |
| `TimeRoles.RolesPartitionRows` | scripts/run_development_training.py:101-110 | every row is in exactly one role, together with all rows of its time |
| `TimeRoles.RowsAreChronological` | scripts/run_development_training.py:101-110 | rows of an earlier role are strictly before rows of a later one |
| `TimeRoles.CheckRoles` | scripts/run_development_training.py:111-121 | over chronological roles the loop fails exactly at the first without both classes, and never for overlap |
| `TimeRoles.TimeRoles` | scripts/run_development_training.py:96-122 | returns the four roles exactly when there are twenty times and every role has both classes; the overlap error is unreachable |
| `NearestRank.RaisesIff` | api/scale_timing.py:66-68 | raises exactly for no values or a rounded product above their number; so never for a fraction of at most one |
| `NearestRank.IsOrderStatistic` | api/scale_timing.py:66-68 | the result is a value with at least k values at most it and fewer than k below it, k = max(1, ceil(n f)) with the product rounded in whatever way |
| `NearestRank.ResultIff` | api/scale_timing.py:66-68 | a value is returned if and only if it is one of the values, at least n f of them (the product rounded) are at most it, and fewer than n f are below it, or none |
| `NearestRank.OrderStatisticUnique` | api/scale_timing.py:66-68 | only one value can be that |
| `NearestRank.Monotone` | api/scale_timing.py:66-68 | a larger fraction never gives a smaller value, for every rounding that keeps order |
| `SortedReals.SortedSorts` | api/scale_timing.py:67 | sorting keeps the values and orders them |

## Left out

- DurableStaleness.CanFinish: asks that the completion has its event or can build one that repeats no committed hash, because the unique constraint on the event hash would keep it from committing; DurableStaleness.ExpiredCompletesIff asks the same of the completions of its key.
- DurableService.OwnerCanSucceed: asks, as DurableService.FirstRequestCanSucceed does, for an identifier and time that give an event which repeats no committed hash, for the same reason.
- NearestRank.RaisesIff: never raising for a fraction of at most one is stated for up to 2^53 values, beyond which `len(ordered)` itself is rounded; infinite products are left out.
- LocalRun.ReleasesAgree: covers clients of one process; nothing is cached across a restart, so agreement ends there. What holds of the files over restarts is LocalRestarts.FilesVerifyIff.
- SQL, psycopg and asyncio themselves: the methods of the store are broken into the steps of one machine, not methods of a class, because what matters is how the statements of many callers interleave. They are replaced by row locks, atomic transactions, a gate, a pool and steps. Taking a row lock and evaluating `is_stale` is one step. PostgreSQL isolation beyond that, connection timeouts and the deadline arithmetic of the poll are left out; running out of time is a client error at any step.
- HMAC, SHA-256, uuid4, JSON and pydantic internals: keys and digests are numbers, identifiers are parameters, a response is a value with a decision and provenance. The recursive check for forbidden response keys is settled by reading it.
- Writers other than the one `AuditLog` between the statements of one append, symbolic links and file types, timestamps, and the configuration without an audit log.
- Waiting: a replay waits in a step of `LocalRun`, so `registry.replay` has no method of its own.
- Migrations: role separation, grants and the content of the statements; a failure of any of them is a failure at that step.
- Scheduler: threads and timers; a future is looked at when `wait` returns it.
- Descendants: parsing `ps` output and the CPU, memory and worker samples.
- Quarantine: column names, dtypes, manifest and anchor format fields, source records, review fields, and publishing through directory descriptors.
- Curation: the fingerprints and the lineage digest of the summary, and file hashing; features are compared as numbers.
- HTTP routes, error mapping, CORS, logging, metrics, lifecycle timing and the state-store diagnostics: counters and plumbing.
- Model training, scoring, calibration, bundle policy checks, the Lane A runner, reports and the web site.
