# Verified model of the ingest protocol

A Dafny model of how a document travels from an upload to the vector index and back, between the Go
"center" service and the Python ingest service, and proofs of what the code comments promise about it:
nothing is silently lost, nothing is applied twice, a live job is never taken over, and a registered
document is completely indexed. `dafny verify dfyconfig.toml` checks the whole project. Nothing here was
executed; the claims are what the verifier proves about the model.

## How it is built

- **Tables** (`Tables`, `TableInvariants`, `Ladder`, `Work`). One function per SQL statement or transaction
  over the values of the three tables, with the exact WHERE guards. A list of statements is any interleaving
  of any number of workers. Conservation, the attempt ladder, replay safety, claim bounds and termination are
  proved by induction over such lists. `SqlStore` is the same store as a class that writes rows in place,
  with faults and rollback; each method is proved equal to its function.
- **Step system** (`Streams`, `System`). Database, both Redis streams with their consumer groups, and any
  number of hash workers, relays, ingest consumers and status appliers, with a program counter each. Every
  call may fail before or after it took effect, every worker may die between two calls, each group may vanish
  and be created again at ID 0. Ghost history records what was published, handled, dropped, claimed and run.
- **Whole runs** (`CustodyInvariant`, `Custody`, `Provenance`, `JobRuns`, `Fencing`, `HoldDiscipline`,
  `StatusDrops`, `Projection`, `LimitsAttained`). Inductive invariants over every action, and the safety results
  over every run: nothing is lost, and every outcome comes from a job that really ended that way. `Projection`
  carries the table results over to the system; `LimitsAttained` gives runs that reach the proved bounds.
- **Workers** (`World`, `Queries`, `OutboxWorker`, `HashWorker`, `StatusWorker`, `StreamConsumer`, `UploadService`).
  Classes with the loops and fields of the originals. Each external call must be a step the system allows at
  that point, and between two calls the others take arbitrary steps, so the results over runs hold for them;
  their contracts also say what they do themselves. What a service answers is a parameter where the result
  depends on it, so the contracts hold for every answer.
- **Time** (`Watchdog`, `TimedExclusion`). The generation counter, and exactly when a live job cannot be
  taken over.
- **Index** (`PointNames`, `IndexRuns`, `QdrantIndex`, `IngestService`). Points, registry, jobs and the
  reset tool as a step system with crashes and half-applied calls, and the pipeline class on top of it.
- **Payloads** (`JsonText`, `StatusEvent`, `DecodeStatus`, `PayloadAgreement`, `IngestPayload`, `StatusHandler`).
  Both validators of the status event, written separately, and the proof that they agree; and the ingest event
  on its way from the document row to the parser.

## Where the code does less than it says

- The center promises that a replay is harmless. One report alone is replay-safe exactly when its attempt has
  been reached, its document is finished, or the attempt can never come (`Ladder.ReplaySafeExactly`); the protocol keeps every event within that bound
  (`Custody.NothingAppliesTwice`).
- The configuration check `job_timeout + watchdog_grace < min_idle` is not quite enough: the time from the
  delivery to arming the watchdog counts as well, and a group created again breaks exclusion whatever the
  settings (`TimedExclusion.ExclusiveExactly`, `TimedExclusion.GroupLossOverlaps`).
- The status constructor accepts a hash with a lone surrogate, which Go reads as another text
  (`PayloadAgreement.HashCanChange`). The ingest parser refuses such hashes, so reports the consumer builds are
  not affected (`PayloadAgreement.ReportNamesItsAttempt`).
- Confirming an upload that did not exist at the request's first update can loop until its context ends
  (`UploadService.LateIntentSpins`); for an existing intent there is at most one re-read.
- The reset tool must not overlap a job, and two jobs of one document must not overlap each other: exactly which
  overlaps break the agreement of index and registry is `IndexRuns.ClearPointsSafeExactly` and
  `IndexRuns.BeginSafeExactly`. All other index results hold for runs without such an overlap.

## Model

| member | source | states |
|---|---|---|
| Custody.NothingIsLost | services/center/internal/outbox/worker.go:118-152 | Over every run (any interleaving, crash, lost reply, stolen claim, lost group): a PROCESSING document at attempt N has something on record for exactly (hash, N): an outbox row not yet published (blocked ones included), an unacknowledged ingest entry, or a status entry that was not handled and is unacknowledged or was dropped as poison |
| Custody.NothingAppliesTwice | services/center/internal/status/worker.go:157-163 | Over every run: every event in either stream is for an attempt its document has already reached, and re-delivering any sequence drawn from the handled status entries changes no table |
| Custody.AckedAfterPublish | services/rag-service/src/rag/transport/stream_consumer.py:374-382 | Over every run: an ingest entry is acknowledged only after a status for exactly its document and attempt was published for it; a status entry only after it was handled or dropped |
| Custody.OneRowPerAttempt | services/center/internal/store/sqlite/status_store.go:68-74 | Over every run: for each attempt 0..retries of a document there is exactly one outbox row, so uploading the same bytes any number of times queues one attempt 0 |
| Provenance.ReportsComeFromJobs | services/rag-service/src/rag/transport/stream_consumer.py:363-421 | Over every run: every entry of the status stream carries exactly the report that a job run of its ingest entry ended with, by the consumer that was working on it, for the entry's own hash and attempt; or it is the permanent failure of the poison branch, and the entry had been delivered more often than the threshold |
| Provenance.OutcomesAreEarned | services/center/internal/store/sqlite/status_store.go:16-84 | Over every run, for every document: INDEXED only after a handled INDEXED report on its current attempt; FAILED only after a handled permanent one, or a retryable one on the last attempt; and one handled retryable failure, with attempts left, for each earlier attempt |
| Provenance.IndexedByAJob | services/rag-service/src/rag/transport/stream_consumer.py:363-382 | End to end: a document shown as INDEXED had a job run that ended INDEXED, of an ingest entry for its hash and current attempt |
| LimitsAttained.RowClaimsAttained | services/center/internal/store/sqlite/outbox_store.go:72-104 | The claim bound of an outbox row is reached: a run of the whole system claims one row, and calls publish under it, exactly max_retries times, and only then is it BLOCKED |
| LimitsAttained.IntentClaimsAttained | services/center/internal/store/sqlite/intent_store.go:134-170 | The claim bound of an intent is reached: a run of the whole system claims one intent exactly max_retries times, and only then is it FAILED |
| LimitsAttained.PublishCallsAttained | services/center/internal/store/sqlite/status_store.go:38-84 | The bounds on attempts and publish calls are reached: a run of the whole system uses up max_attempts attempts of a document with max_retries publish calls each, and only then is it FAILED |
| LimitsAttained.JobRunsAttained | services/rag-service/src/rag/transport/stream_consumer.py:259-272 | The job bound is reached: a run of the whole system in which the job of one entry is run exactly poison_threshold times, deliveries 1 to poison_threshold of one lifetime; the next takeover reports the permanent failure and runs no job |
| LimitsAttained.UploadIsIndexed | services/center/internal/outbox/worker.go:118-152 | A run of the whole system from the upload to INDEXED, with every publish but the last one failing |
| LimitsAttained.OneAttempt | services/center/internal/outbox/worker.go:118-152 | From any quiet state with a waiting row, one attempt of relay, consumer and applier ends as its job's report says: INDEXED, FAILED, or the next attempt waiting in its own row |
| CustodyInvariant.StepKeeps | services/center/internal/store/sqlite/status_store.go:33-84 | Each action of each actor keeps the invariant that links tables, streams, groups and program counters, and only moves rows forward |
| CustodyInvariant.RunKeeps | services/center/internal/store/sqlite/status_store.go:33-84 | The invariant holds, and rows only move forward, over whole runs |
| Frames.OthersKeepPc | services/center/internal/outbox/worker.go:118-152 | No actor moves another worker's program counter, both streams only grow, and nothing handled or dropped is taken back |
| JobRuns.JobRunsBounded | services/rag-service/src/rag/transport/stream_consumer.py:248-274 | Over every run with any number of consumers: within one group lifetime the job of one stream entry is run at most poison_threshold times |
| HoldDiscipline.ConsumersAreDisciplined | services/rag-service/src/rag/transport/stream_consumer.py:178-197 | Over every run: an acknowledgement directly follows a successful publish, a job run directly follows its own delivery, and while a status is held only renewals and publishes follow |
| HoldDiscipline.HeldStatusStays | services/rag-service/src/rag/transport/stream_consumer.py:384-402 | A held status is the same until a publish of it succeeds or the process dies |
| StatusDrops.UnhandledAckIsPoison | services/center/internal/status/worker.go:274-281 | Over every run: an acknowledged status entry was handled, or had been delivered more often than the poison threshold |
| Fencing.LostHashClaimWritesNothing | services/center/internal/store/sqlite/store.go:62-75 | Over every run: a hash worker whose claim was recovered, even if the intent was claimed again since, changes no row with any of its statements |
| Fencing.LostRowClaimWritesNothing | services/center/internal/store/sqlite/outbox_store.go:58-70 | Over every run: a relay whose claim was recovered changes no row with mark, release or block |
| Fencing.PublishCallsBounded | services/center/internal/outbox/worker.go:95-152 | Over every run: a document's ingest event is published at most outbox max_retries times max_attempts times |
| Projection.RunIsScript | services/center/internal/store/sqlite/store.go:33-78 | The database after any run of the whole system is the database after the list of statements that took effect in it |
| Projection.SystemRefinesLadder | services/center/internal/store/sqlite/status_store.go:16-84 | Over every run of the whole system: documents climb the attempt ladder, accepted reports carry attempts 0, 1, 2, ..., and claims per intent and per row stay within their retry limits |
| Projection.SystemTerminates | services/center/internal/store/sqlite/outbox_store.go:42-120 | With no new uploads, a run of the whole system of any length changes rows at most as often as the measure of its first state says |
| TableInvariants.Conservation | services/center/internal/store/sqlite/status_store.go:45-83 | After any list of statements: outbox rows of a document = retries + 1, retries < max_attempts, HASHED intents name existing documents, claims and retries are consistent |
| TableInvariants.ExecKeepsInv | services/center/internal/store/sqlite/intent_store.go:75-170 | Each statement keeps those facts and only moves rows forward: terminal rows never change, nothing re-enters WAITING, EXPIRED comes only from WAITING, expires_at is fixed |
| Ladder.StoreRefinesLadder | services/center/internal/store/sqlite/status_store.go:16-84 | Over every interleaving: the reports that change a document have consecutive attempts, all but the last are retryable failures with attempts left, finished documents accept nothing, and the row ends where the sequential automaton ends |
| Ladder.AttemptsBounded | services/center/internal/store/sqlite/status_store.go:42-43 | At most max_attempts reports ever change one document |
| Ladder.ReplayChangesNothing | services/center/internal/store/sqlite/status_store.go:11-31 | After any run in which every report was handled once its attempt had been reached: handling again any of its reports, in any order and number, leaves every table as it was |
| Ladder.ReplaySafeExactly | services/center/internal/store/sqlite/status_store.go:16-31 | For one report, also for a hash without a document: once handled, handling it again after any later run changes nothing if and only if its attempt had been reached, its document was finished, or its attempt is not below max_attempts |
| Ladder.EarlyReplayChanges | services/center/internal/store/sqlite/status_store.go:16-31 | Counterexample for every other report: a run, from the upload of the document on if need be, after which handling it again changes the document |
| Work.IntentClaimsBounded | services/center/internal/store/sqlite/intent_store.go:75-88 | No interleaving claims an intent more often than the hash max_retries |
| Work.RowClaimsBounded | services/center/internal/store/sqlite/outbox_store.go:42-56 | No interleaving claims an outbox row more often than the outbox max_retries |
| Work.StatementUsesWork | services/center/internal/store/sqlite/outbox_store.go:42-120 | Every statement that changes a row, other than creating an intent, lowers a natural-number measure |
| Work.RunsTerminate | services/center/internal/store/sqlite/intent_store.go:75-170 | For a fixed set of intents, a run changes rows at most as often as the measure allows |
| SqlStore.Store.StartIngestion | services/center/internal/store/sqlite/store.go:33-78 | The transaction over three tables, with a fault at any point: it commits exactly when the intent is still HASHING under this claim; then the intent is HASHED with this hash, a new hash has a PROCESSING document at attempt 0 with exactly the given path, name and size and one new PENDING row, and a known hash keeps its document and rows; a fault or a lost claim leaves every table as before |
| SqlStore.Store.ApplyIndexed | services/center/internal/store/sqlite/status_store.go:16-29 | The compare-and-swap: INDEXED exactly for a PROCESSING document at this attempt, nothing else of any row changed; otherwise, and after an error, no change |
| SqlStore.Store.ApplyFailed | services/center/internal/store/sqlite/status_store.go:38-84 | Retried exactly when the report is current, retryable and leaves an attempt: retries one higher and one new PENDING row, together or not at all; Exhausted means FAILED at the same attempt and no row; Stale and an error change nothing |
| SqlStore.Store.CreateIntent | services/center/internal/store/sqlite/intent_store.go:20-28 | Inserts a WAITING intent with the given name, temporary path and expiry under a new id; an existing id is refused |
| SqlStore.Store.UpdateIntentToUploaded | services/center/internal/store/sqlite/intent_store.go:47-59 | WAITING and unexpired to UPLOADED, else no row |
| SqlStore.Store.UpdateIntentToExpired | services/center/internal/store/sqlite/intent_store.go:61-73 | WAITING and expired to EXPIRED, else no row |
| SqlStore.Store.UpdateIntentToHashing | services/center/internal/store/sqlite/intent_store.go:75-87 | UPLOADED to HASHING with this owner and claim time, else no row |
| SqlStore.Store.MarkIntentFailed | services/center/internal/store/sqlite/intent_store.go:116-129 | FAILED only under the caller's own claim |
| SqlStore.Store.ReleaseIntentClaim | services/center/internal/store/sqlite/intent_store.go:134-150 | Only under the caller's own claim: one more retry and no claim; UPLOADED, so that it can be claimed again, while retries stay below the limit, FAILED at the limit |
| SqlStore.Store.RecoverStaleIntents | services/center/internal/store/sqlite/intent_store.go:154-170 | Exactly the HASHING intents claimed before the cutoff are given back in that way, every other intent is untouched; the row loop equals the one set-wide statement |
| SqlStore.Store.ClaimOutboxMessage | services/center/internal/store/sqlite/outbox_store.go:42-56 | PENDING to CLAIMED with this owner and claim time, exactly when the row is PENDING, else no row |
| SqlStore.Store.MarkPublished | services/center/internal/store/sqlite/outbox_store.go:58-70 | PUBLISHED only under the caller's own claim |
| SqlStore.Store.RecoverStaleOutbox | services/center/internal/store/sqlite/outbox_store.go:72-87 | Exactly the rows CLAIMED before the cutoff are given back, PENDING again below the retry limit and BLOCKED at it, every other row is untouched; the row loop equals the one set-wide statement |
| SqlStore.Store.ReleaseClaim | services/center/internal/store/sqlite/outbox_store.go:89-104 | Only under the caller's own claim: one more retry and no claim; PENDING, so that it can be claimed again, while retries stay below the limit, BLOCKED at the limit |
| SqlStore.Store.MarkBlocked | services/center/internal/store/sqlite/outbox_store.go:106-120 | BLOCKED only under the caller's own claim |
| SqlStore.Store.GetDocumentByHash | services/center/internal/store/sqlite/document_store.go:19-32 | The stored document, or none |
| World.World.Act | services/center/internal/outbox/worker.go:118-152 | A worker's external call is one allowed step of the step system, recorded in its run |
| OutboxWorker.Worker.Pass | services/center/internal/outbox/worker.go:95-116 | Visits every fetched row in order, whatever happened to the earlier ones, unless cancelled |
| OutboxWorker.Worker.ProcessMessage | services/center/internal/outbox/worker.go:118-152 | Read, publish, mark in this order; mark only after a publish that answered; every other ending releases or blocks |
| OutboxWorker.Worker.GetDocument | services/center/internal/outbox/worker.go:118-133 | The event to publish names the row's hash and the document's retries as read; a missing document blocks the row, a failed query gives the claim back |
| OutboxWorker.Worker.PublishMessage | services/center/internal/outbox/worker.go:154-174 | A publish that took effect appends exactly that event to the stream and writes no row |
| OutboxWorker.Worker.Call | services/center/internal/outbox/worker.go:176-197 | Each claim, mark, block and release runs its own statement on the claimed row |
| OutboxWorker.Worker.FetchCandidates | services/center/internal/store/sqlite/outbox_store.go:20-40 | Exactly the oldest PENDING rows up to the batch size, each once, oldest first, and no write |
| Queries.OldestFirst | services/center/internal/store/sqlite/outbox_store.go:20-23 | Selection by creation time with a limit: as many as there are, sorted, none left out older than one taken |
| HashWorker.Worker.Pass | services/center/internal/hashing/worker.go:110-133 | Visits every fetched intent in order, whatever happened to the earlier ones, unless cancelled |
| HashWorker.Worker.FetchCandidates | services/center/internal/store/sqlite/intent_store.go:90-112 | Exactly the oldest UPLOADED intents up to the batch size, oldest first, each with its temporary object and file name, and no write |
| HashWorker.Worker.Process | services/center/internal/hashing/worker.go:135-158 | For all answers of the storage: given up for good exactly when there is no temporary object, claim given back without a record exactly when the storage could not be reached, and otherwise one StartIngestion with the hash, path and size it answered and the intent's file name, with a release if that failed |
| HashWorker.Worker.HashAndRecord | services/center/internal/hashing/worker.go:160-198 | For all answers of the storage: NoTempObject if and only if there was never one or the storage says it is gone; an unreachable storage is another error and records nothing; what is recorded is the hash and size of the hashing answer and the path of the move |
| HashWorker.Worker.StartIngestion | services/center/internal/hashing/worker.go:181-196 | Succeeds exactly when the claim still held at the transaction; then the intent is HASHED with this hash, a new hash has its document at attempt 0 with exactly this file and one PENDING row, a known hash keeps both; a lost claim wrote nothing |
| HashWorker.Worker.MarkFailed | services/center/internal/hashing/worker.go:200-209 | Runs the fenced FAILED statement on the claimed intent |
| HashWorker.Worker.ReleaseClaim | services/center/internal/hashing/worker.go:211-225 | Runs the fenced release statement on the claimed intent |
| StatusWorker.Worker.Process | services/center/internal/status/worker.go:302-328 | All handles are of this entry, one health probe after each failed one. True: exactly the last handle succeeded, one ack, and the entry is on record as handled. False without cancellation: every handle failed, exactly two probes found the store healthy, the last one included, and the entry was left |
| StatusWorker.Worker.Handle | services/center/internal/status/worker.go:302-311 | What is applied to the database is the event of this very entry; the entry is on record as handled exactly when the store answered |
| StatusWorker.Worker.ReadNew | services/center/internal/events/redis/status_source.go:38-61 | The next undelivered entries in stream order, as many as there are up to the batch size, now pending under this worker; nothing is read only without a group |
| StatusWorker.Worker.ClaimStale | services/center/internal/events/redis/status_source.go:63-79 | Only entries idle for min_idle, now pending under this worker with one more delivery each |
| StatusWorker.Worker.ReadOnce | services/center/internal/status/worker.go:197-217 | Entry i of the batch gets job i and result i, all of whose calls are on that entry whatever happened to its neighbours; a finished entry was handled, an unfinished one given up after two failures; the batch fails exactly when some entry was not finished |
| StatusWorker.Worker.WaitUntilHealthy | services/center/internal/status/worker.go:168-188 | Probes until one is healthy, the last; ends otherwise only by cancellation |
| StatusWorker.Worker.RecoverOnce | services/center/internal/status/worker.go:222-251 | A healthy store gets the recovery rounds below, an unhealthy one no claim at all |
| StatusWorker.Worker.ClaimAndProcess | services/center/internal/status/worker.go:254-287 | At most ten rounds, each but the last with a full batch; claimed entry k of a round has job k and fate k: left, dropped and on record as dropped, handled and on record as handled, or given up |
| StatusWorker.Worker.ProcessClaimed | services/center/internal/status/worker.go:264-283 | A claimed entry is dropped exactly when its delivery count is above the threshold, left when the count cannot be read, and handled otherwise |
| StatusWorker.Worker.DroppedWasPoison | services/center/internal/status/worker.go:274-281 | Every entry on record as dropped had been delivered more often than the threshold |
| StatusHandler.Handler.Handle | services/center/internal/status/handler.go:52-106 | Leaves an entry pending only on a database error, which changed nothing; an acknowledged report was applied as specified; anything malformed is acknowledged without a write |
| StatusHandler.PublishedIsReport | services/center/internal/status/handler.go:64-92 | The entry for an event Python accepted is a report on that event's own document and attempt |
| StatusHandler.OutcomeIsApplied | services/rag-service/src/rag/transport/stream_consumer.py:413-421 | For every ingest payload Python parses and every outcome of its job: the entry Python publishes makes the handler apply exactly that outcome, INDEXED or FAILED with its flag, to the hash and attempt the payload named |
| StreamConsumer.Consumer.ReadOnce | services/rag-service/src/rag/transport/stream_consumer.py:219-231 | At most one read, then the handling of the entry it delivered; no read exactly when there is no group or no new entry; only while nothing is held |
| StreamConsumer.Consumer.ClaimAndProcess | services/rag-service/src/rag/transport/stream_consumer.py:248-274 | What one pass does: at most max_recovery_jobs takeovers, each a claim, a lookup and then a skip, a report or a job; none after one that left its status held; at most one failed claim |
| StreamConsumer.Consumer.TakeOver | services/rag-service/src/rag/transport/stream_consumer.py:259-272 | The lookup decides: nothing more when it failed or the entry is not pending under this consumer, a report without a job above the poison threshold, a job otherwise; held exactly when the publish failed |
| StreamConsumer.TakeoversRunOnce | services/rag-service/src/rag/transport/stream_consumer.py:249-252 | A recovery pass runs at most one job per takeover |
| StreamConsumer.Consumer.ClaimOne | services/rag-service/src/rag/transport/stream_consumer.py:276-301 | Either one claim succeeded and exactly the returned entry is claimed, or nothing is claimed and at most one claim call failed |
| StreamConsumer.Consumer.PendingInfo | services/rag-service/src/rag/transport/stream_consumer.py:303-310 | The answer is the entry's delivery count and owner in the group, and it decides where the entry goes; above the threshold the status at hand is the permanent failure for the entry's own hash and attempt |
| StreamConsumer.Consumer.ReportPoison | services/rag-service/src/rag/transport/stream_consumer.py:312-323 | The permanent failure is published for the entry, and acknowledged only if that went out |
| StreamConsumer.Consumer.Handle | services/rag-service/src/rag/transport/stream_consumer.py:363-372 | One job run under an armed watchdog; what is published when the entry is finished, or held when it is not, is exactly the report this run ended with, under the entry's hash and attempt |
| StreamConsumer.Consumer.RunJob | services/rag-service/src/rag/transport/stream_consumer.py:363-372 | The status at hand after the job has the hash and attempt of the ingest entry and exactly the report of the job |
| StreamConsumer.Consumer.TryPublish | services/rag-service/src/rag/transport/stream_consumer.py:423-443 | A publish that succeeded means that exactly the status at hand, for the entry's own document and attempt, is in the status stream |
| StreamConsumer.Consumer.ReadGroup | services/rag-service/src/rag/transport/stream_consumer.py:219-231 | Delivers the next entry of the stream with its first delivery; nothing is asked for exactly when there is no group or no new entry |
| StreamConsumer.Consumer.AutoClaim | services/rag-service/src/rag/transport/stream_consumer.py:276-301 | A claimed entry had been idle for min_idle, is now owned by this consumer and has one more delivery |
| StreamConsumer.Consumer.Finish | services/rag-service/src/rag/transport/stream_consumer.py:374-382 | Acknowledged after exactly this status is in the stream, held with exactly this entry and status otherwise |
| StreamConsumer.Consumer.Publish | services/rag-service/src/rag/transport/stream_consumer.py:423-443 | Publish budget: at most publish_attempts, each after the first starts at t with t + call_timeout < started + min_idle, true exactly when the last attempt succeeded |
| StreamConsumer.Consumer.RetryHeld | services/rag-service/src/rag/transport/stream_consumer.py:384-402 | Renew, then one publish of exactly the held status; only its success clears the hold and acknowledges; the job is not run |
| StreamConsumer.Consumer.Renew | services/rag-service/src/rag/transport/stream_consumer.py:404-411 | Keeps the hold, resets the idle time under this owner, and changes no delivery count |
| StreamConsumer.Consumer.Run | services/rag-service/src/rag/transport/stream_consumer.py:178-197 | Everything this consumer ever performed is disciplined: nothing is read, claimed or run while a status is held, acknowledgements follow their publish, jobs their delivery; it ends idle or holding, as the held field says |
| StreamConsumer.Consumer.EnsureGroupUntilReady | services/rag-service/src/rag/transport/stream_consumer.py:165-174 | Ends with a live group or by cancellation, without touching entries or the hold |
| Watchdog.Watchdog.Fire | services/rag-service/src/rag/transport/watchdog.py:83-94 | The process exits if and only if no arm or disarm followed the arm that made the timer, so never while disarmed |
| Watchdog.Watchdog.ArmTimer | services/rag-service/src/rag/transport/watchdog.py:66-74 | Starts a timer with the new generation |
| Watchdog.Watchdog.DisarmTimer | services/rag-service/src/rag/transport/watchdog.py:76-81 | Moves the generation on, so every earlier timer is void |
| TimedExclusion.ExclusiveExactly | services/center/internal/config/config.go:255-259 | While one group lives, no two live processes ever run the job of one entry, in any timed run, if and only if delay from delivery to arming + job_timeout + watchdog_grace < min_idle |
| TimedExclusion.GroupLossOverlaps | services/rag-service/src/rag/transport/stream_consumer.py:199-209 | After a lost group is created again at ID 0 two live processes can run one entry, whatever the timing |
| UploadService.Service.ConfirmUpload | services/center/internal/upload/service.go:83-102 | For all replies of the database: a waiting, unexpired upload becomes UPLOADED and is confirmed; any other answer is the one for the status of the intent read last; an error only when a call failed or the request was cancelled. An existing intent is read at most twice, at most one row is written, only over WAITING, and the answer holds from then on |
| UploadService.Service.ResolveLostGate | services/center/internal/upload/service.go:104-132 | The answer status by status of the intent read last: confirmed exactly for UPLOADED, HASHING and HASHED, expired for EXPIRED or for WAITING that this request moved; at most one re-read when the intent was expired at the request's clock reading, none when it had left WAITING |
| UploadService.LostGateSpinsExactly | services/center/internal/upload/service.go:122-129 | The lost-gate loop ends in its first round or never: it spins exactly on a waiting intent that is unexpired at the request's clock reading |
| UploadService.LateIntentSpins | services/center/internal/upload/service.go:83-91 | Counterexample: an intent created between the two updates of one request keeps the loop spinning |
| UploadService.Service.GetUploadStatus | services/center/internal/upload/service.go:134-166 | The poll status by status: WAITING until the expiry and EXPIRED from then on, UPLOADED, PROCESSING while hashing, EXPIRED, FAILED, and the document's own status once the intent names it; not found exactly for an unknown id, an error only when a query failed |
| UploadService.StableAnswer | services/center/internal/upload/service.go:134-166 | INDEXED and FAILED answers are final for all later versions of the rows |
| UploadService.StablePolls | services/center/internal/upload/service.go:147-158 | Over whole runs of the system: once a poll answered INDEXED or FAILED every later poll answers the same, and no poll finds a missing document |
| IndexRuns.IndexAgreesWithRegistry | services/rag-service/src/rag/ingest/service.py:58-99 | Over every run without a harmful overlap, with crashes between any two calls, half-applied calls and resets: a registry row means the document's points are exactly its chunks 0..chunk_count-1 as one job wrote them |
| IndexRuns.StepKeeps | services/rag-service/src/rag/ingest/service.py:90-99 | Each call of a job or of the reset tool, made without a harmful overlap, keeps that agreement |
| IndexRuns.CompletedJobReplaces | services/rag-service/src/rag/ingest/service.py:87-98 | A completed re-run under any chunk settings leaves exactly its own chunks, no stale tail |
| IndexRuns.TouchesOneDocument | services/rag-service/src/rag/adapters/qdrant_index.py:37-56 | A job's calls change no other document's points, row or job |
| IndexRuns.UpsertKeepsOthers | services/rag-service/src/rag/adapters/qdrant_index.py:46-56 | Upserting points of one document leaves every other document's points as they were |
| IndexRuns.ClearPointsSafeExactly | services/rag-service/src/rag/tools/reset_index.py:38-41 | Clearing the points leaves index and registry in agreement, whatever follows, if and only if no row is registered and no job has upserted anything: why the rows go first, and why a reset must not overlap a job |
| IndexRuns.UpsertedThenCleared | services/rag-service/src/rag/tools/reset_index.py:38-41 | Counterexample for every other state without rows: the job that had upserted goes on, registers, and its first chunk is missing |
| IndexRuns.ResetDuringJob | services/rag-service/src/rag/tools/reset_index.py:38-41 | The overlap in small: index and registry agree right after both clears, and no more once the job registers |
| IndexRuns.BeginSafeExactly | services/rag-service/src/rag/adapters/sqlite_index_registry.py:24-31 | Starting a job is harmless, whatever follows, if and only if no other job of its document is under way |
| IndexRuns.SecondJobDeletes | services/rag-service/src/rag/adapters/sqlite_index_registry.py:24-31 | Counterexample: of two jobs of one document the first registers, and the second deletes its points |
| PointNames.NameInjective | services/rag-service/src/rag/adapters/qdrant_index.py:26-28 | Two points get the same id only when they are the same chunk of the same document, for all hashes and indices |
| QdrantIndex.BatchedEqualsUnbatched | services/rag-service/src/rag/adapters/qdrant_index.py:46-56 | Any cut into upsert requests stores what one request with all points would |
| QdrantIndex.Index.Upsert | services/rag-service/src/rag/adapters/qdrant_index.py:46-56 | Requests of at most the batch size that together hold every point exactly once, in order; it fails exactly at the first request that is not answered, after a prefix |
| QdrantIndex.Index.DeleteByHash | services/rag-service/src/rag/adapters/qdrant_index.py:37-44 | After a call that is answered no point of the document is left; a failure ends the job |
| IngestService.Service.EmbedAll | services/rag-service/src/rag/ingest/service.py:79-83 | For every positive batch size exactly one vector per chunk, in order, with one look at the clock before each request; a timeout exactly when the deadline has passed, otherwise a failure exactly at the first request that is not answered |
| IngestService.Service.Chunks | services/rag-service/src/rag/ingest/service.py:64-77 | Success if and only if the file is supported and fits, the object came whole and fits, both looks at the clock were in time, and its text parses, is not blank and splits into chunks; then the chunks are that split of that text. Each failure with its retryable flag and reason, exactly for its cause |
| IngestService.Service.Prepare | services/rag-service/src/rag/ingest/service.py:79-89 | The points are the chunks of that split in order, each with its own vector, whenever the file is readable, the deadline kept and every embedding answered; a permanent failure only, and exactly, for the permanent causes |
| IngestService.Service.GetBlob | services/rag-service/src/rag/adapters/minio_blob_store.py:23-51 | Read part by part: the object comes back whole exactly when it could be read and fits the limit; too large, missing and broken off are classified as in the code |
| IngestService.Service.Process | services/rag-service/src/rag/ingest/service.py:58-99 | Whatever other jobs and resets do meanwhile, and for all answers of the services: a registered document is INDEXED without a count; a new one is INDEXED with the count of its chunks whenever its file is readable, the deadline kept and every call answered, and never otherwise; permanent failures exactly for unsupported or oversized, unreadable, and empty files; a timeout exactly after the deadline. Without a harmful overlap the index then holds exactly these chunks with their own vectors and the registry says so |
| IngestService.Service.ProcessNew | services/rag-service/src/rag/ingest/service.py:64-99 | The same for a document that is not registered when its job starts |
| IngestService.Service.Replace | services/rag-service/src/rag/ingest/service.py:90-99 | Delete, upsert, register; INDEXED whenever all are answered, and success without a harmful overlap means the points are exactly these |
| IngestService.Deadline.Check | services/rag-service/src/rag/transport/watchdog.py:32-42 | In time exactly before the expiry, and never again after it |
| IngestService.ResetTool.Run | services/rag-service/src/rag/tools/reset_index.py:28-42 | Unconfirmed changes nothing; done means no points, and without a harmful overlap no rows; index and registry agree wherever it stops, as long as no harmful overlap happened |
| JsonText.TextArrivesExactly | services/rag-service/src/rag/transport/status_event.py:287-288 | A text that Python serialises is read back unchanged by Go if and only if it has no surrogate code point |
| JsonText.GoReadsUnicode | services/center/internal/events/status.go:174-184 | What Go decodes never contains a surrogate, and is empty only for empty text |
| StatusEvent.NamesRoundTrip | services/rag-service/src/rag/transport/status_event.py:41-57 | Status and reason names are told apart and arrive unchanged |
| StatusEvent.PyStatusEvent.PostInit | services/rag-service/src/rag/transport/status_event.py:187-226 | The constructor accepts exactly the arguments that make a valid event, and coerces them to it |
| StatusEvent.PyStatusEvent.ToDict | services/rag-service/src/rag/transport/status_event.py:268-285 | The dictionary filled in step by step is the specified one, absent fields without a key |
| DecodeStatus.Decode | services/center/internal/events/status.go:91-154 | Accepts exactly the acceptable payloads with the values their fields say; an ill-typed field is reported first, the first one in reading order |
| DecodeStatus.FieldReader.Str | services/center/internal/events/status.go:174-184 | The text of a field, and the first error kept |
| DecodeStatus.FieldReader.Boolean | services/center/internal/events/status.go:186-197 | The flag of a field, and the first error kept |
| DecodeStatus.FieldReader.Integer | services/center/internal/events/status.go:199-215 | The integer of a field within the int32 range, 1.0 included, and the first error kept |
| DecodeStatus.FieldReader.Fail | services/center/internal/events/status.go:168-172 | Only the first error is recorded |
| DecodeStatus.FirstBadIsNone | services/center/internal/events/status.go:160-215 | No first error exactly when every field is absent, null or of its type |
| PayloadAgreement.ValidatorsAgree | services/center/internal/events/status.go:91-154 | For every event with a non-empty id, valid or not: Go accepts its dictionary if and only if Python's constructor accepts it |
| PayloadAgreement.NamesAgree | services/center/internal/events/status.go:21-47 | Go's own lists of statuses and reasons know every name Python writes, and tell the two statuses apart |
| PayloadAgreement.ReportArrives | services/rag-service/src/rag/transport/status_event.py:173-285 | Every event Python's constructor accepts is accepted by Go with the status, attempt, flag, reason and chunk count the constructor was called with; with the same hash if and only if the hash has no surrogate |
| PayloadAgreement.HashCanChange | services/rag-service/src/rag/transport/status_event.py:191-192 | Counterexample: a hash Python's constructor accepts and Go reads as another one |
| PayloadAgreement.ReportNamesItsAttempt | services/rag-service/src/rag/transport/stream_consumer.py:413-421 | For every ingest payload Python parses and every outcome: Go accepts the report, reads the hash and attempt the payload named, and reads the outcome itself, INDEXED with its count or FAILED with its flag and reason |
| IngestPayload.PayloadArrives | services/center/internal/outbox/worker.go:154-174 | The event Go builds from a document row is accepted by Python if and only if its version is 1, its texts are not empty and its numbers are in range, and then Python reads exactly the row's hash, file name, path, size and attempt |
| PayloadAgreement.HashComesBack | services/rag-service/src/rag/transport/status_event.py:141-152 | A hash Go published and Python echoed comes back unchanged |

## Left out

- Trimming and deletion of stream entries, and malformed ingest payloads in the custody results: documented losses that are repaired elsewhere.
- Effects of a timed-out call that arrive after the next call of the same worker: a call takes effect before its reply or not at all.
- The race between listing idle consumers and deleting one: check and delete are one step.
- IngestService.ResetTool.Run: the collection exists; the counts it prints are not modelled.
- Internals of MinIO, Qdrant, Ollama, SQLite and Redis: each is a value with a small contract that may fail at any call; a consumer group is such a value.
- SHA-256 and uuid5: hashes are opaque, and a point's name stands for its id.
- Text splitter, file parsers and embedder: parameters of the pipeline class.
- Order among rows or intents created at the same time.
- StreamConsumer.Consumer.Handle: errors that are not Redis errors appear where a status is published; elsewhere only the step system has them, as an abandoned entry.
- StreamConsumer.Consumer.ReadOnce: entries are well-formed ingest events; `StatusEvent.Parse` models the parser on its own.
- JSON syntax, timestamp formats, float rounding and error texts: payloads are JSON values, and the decoder's errors are named by kind.
- Real-time tickers and sleeps outside the two timed results: the loops are bounded by a round count or by a context that is eventually cancelled.
- HTTP, gRPC, command lines, logging, migrations, wiring, presigned URLs, the query service and the fault hooks: they add no state to the protocol.
- Object moves of the hash worker: any answer of the object storage is possible at any time.
- Creating an upload: only its row; the presigned URL and the name of its temporary object are not modelled.
- That a retried hash job succeeds: after the temporary object was moved, a crash before the record makes the retry fail.
- Stability of a polled EXPIRED: a confirmation that read its clock earlier may still win.
