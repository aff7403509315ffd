# Verified model of the event worker

A Dafny model of the worker's delivery path — Kafka fetch, Redis claim, validation, retried PostgreSQL insert, dead
letter queue, offset commit, restart — with the event model, the generic middleware pipeline and the ingestion rate
limiter. `dafny verify dfyconfig.toml` checks all of it.

## How it is organised

| module | stands for |
|---|---|
| `Models` | validation, canonical form and claim keys of events (`libs/shared/models.py`) |
| `Database` | the tables and statements of `apps/worker/db.py`; class `Db` |
| `Idempotency` | `SET NX EX` claims, batches, releases, leases over timed runs; class `IdempotencyGuard` |
| `Retry` | the insert retry loop and its backoff arithmetic over reals |
| `DeadLetters` | the DLQ publisher; class `DlqPublisher` |
| `Handlers` | the four handlers and the processor as methods (class `EventProcessor`), the nested meaning of the chain (`RunChain`), and the flat decision (`Decide`, `FlatStore`) it refines |
| `Outcomes` | the whole effect of one event, case by case, told without the functions that compute it |
| `Pipeline`, `WorkerPipeline` | the generic pipeline for handler lists of any length, and the worker's chain as one |
| `RateLimiter` | the fixed-window limiter and its admissions over arbitrary intervals |
| `Consumer` | the consume loop with permits, out-of-order commits and restarts, as a transition system and as class `ConsumerLoop` |
| `Tasks`, `TaskLaws` | every await of a task as one step, freely interleaved with other tasks, key expiry and crashes; what all runs keep |
| `Uniqueness`, `Confluence` | when an event is stored at most once, why each condition is needed, what healthy runs leave in the tables |
| `Solo` | a task that nobody interrupts does what one call of `process` does |
| `Worker` | loop and tasks on one log: conservation, no unexplained loss, effectively once |
| `Delivery`, `Losses` | at-least-once delivery: exactly which restarts lose a message, in both directions |
| `Wrappers` | `Option`, facts about set sizes, associativity of concatenation |

Code that changes state is a method on a class, specified by a function of the old state; the theorems are about these
functions. Every external call is given its answer as a parameter, and every way it can fail is one of the answers:
Redis may answer, lose the command, or apply it and lose the answer; an insert may return, fail cleanly, or fail after
writing its row; publishing may succeed, fail with a broker error, or raise something else, delivered or not. A commit
that raises after the broker applied it leaves the same state as one that returned.

## Where the code says something other than its documentation

The model follows the code.

- `consumer.py:5-6` promises at-least-once delivery because an offset is committed only after `process` has returned.
  Two things break this when the worker restarts. Commits are per task and unordered, so a restart can begin past
  messages still in flight, up to `MAX_CONCURRENT_TASKS - 1` each time (`Consumer.SkipWindow`,
  `Consumer.SkipBoundAttained`, `Consumer.SkippedForever`). And the claim is taken before the write, so a task cut off
  in between leaves a key behind; the redelivered message is then a duplicate of itself, `process` returns, and its
  offset is committed: `Losses.OrphanedClaim` is such a run, with any number of permits, one included, and with Redis,
  PostgreSQL and Kafka in perfect health. `Losses.RestartExact` is the exact answer: the session after a restart
  delivers whatever it reaches if and only if no undelivered message of the log lies below its committed offset or finds
  its key taken at the moment of the restart. `Delivery.AtLeastOnce` says what follows for whole runs, and
  `Delivery.QuietRestartsLoseNothing` that restarts which interrupt no task are always safe. "Delivered" means a row, an
  envelope on the topic, or a publish that failed; `Delivery.RowOrEnvelope` drops the last when publishes arrive.
- `failover_analysis.md`, `retry_dlq_design.md` and the comments on failing open call the events table a second
  deduplication layer. Its conflict target contains the ingestion time, so a repeated insert is dropped only at the same
  instant: `Database.ConflictNeedsSameInstant`. Uniqueness rests on the Redis claim: `Uniqueness.AtMostOneRow`, with
  `NeedsRedis`, `NeedsLease`, `NeedsOneSpelling` and `NeedsCleanFailures` showing that no condition can be dropped.
- `processor.py:51` says `process` never raises. It does when an id that is not a string reaches the DLQ key, or when
  the producer fails with something other than `KafkaError`: `Handlers.ChainIsFlat` says exactly when,
  `Handlers.AlienIdRaises` gives the family of inputs, `Handlers.NeverRaises` when not.
- `retry_dlq_design.md` lists a wait of 16 s after attempt 5 and about 31 s in total. The loop does not sleep after its
  last attempt: 15 s, or 11.25 s to 18.75 s with jitter (`Retry.DefaultBudget`).
- `rate_limiter.py:2` announces a sliding window; the script counts in fixed windows. With keys that are gone exactly
  one window after they were set, a half-open interval of `k` windows admits at most `(k + 1) * limit - 1` requests, one
  less than is usually said, and this is attained for every `k`.
- The claim is taken on the id as sent and released on the id in upper case; they agree exactly when the producer sent
  upper case (`Models.ClaimAndReleaseAgree`).
- The DLQ publisher is there to record every failure for audit (`retry.py:4-8`). The audit table refuses an id that is
  null or not a text (`001_initial.sql:123`), so an event with a null, zero or empty-collection id leaves an envelope
  and no audit row.

## Model

| member | source | states |
|---|---|---|
| `Models.AcceptanceRules` | libs/shared/models.py:40-72 | exactly which raw events are accepted: id of 26 Crockford characters in either case, the length limits, a time-zone aware stamp, a non-empty payload, defaults only for absent fields |
| `Models.FieldsCarried` | libs/shared/models.py:40-66 | the canonical event is the one and only event with the id in upper case, the given fields unchanged, the defaults for absent ones, and the instant of the stamp |
| `Models.StampsInUtc` | libs/shared/models.py:55-66 | a UTC stamp keeps its reading; moving reading and offset together changes nothing |
| `Models.RoundTrip` | libs/shared/models.py:48-76 | an accepted event carries its raw fields, and re-validating its Kafka dictionary, trace id or not, gives it back |
| `Models.SameInstantSameEvent` | libs/shared/models.py:55-66 | two time stamps make the same event if and only if they name the same instant |
| `Models.ClaimAndReleaseAgree` | apps/worker/handlers.py:46-53 | the key claimed is the key later released if and only if the id arrived in upper case |
| `Models.ForwardedKeysCanonical` | libs/shared/models.py:74-76 | events forwarded by the ingestion service claim and release one key, shared by two of them exactly when their ids are equal |
| `Models.KeyFormat` | apps/worker/idempotency.py:36-37 | the key is the id behind its prefix |
| `Models.KeyInjective` | apps/worker/idempotency.py:36-37 | different ids have different keys |
| `Database.Db.InsertEvent` | apps/worker/db.py:41-75 | rows already there stay as they are, the only new one is this event's, a clean failure writes nothing; true exactly when the key (id, time) was absent |
| `Database.Db.UpsertDeviceState` | apps/worker/db.py:78-116 | device row and state row for each of the three ways the two statements can end; the count goes up by one, the other fields are the event's, other devices keep theirs |
| `Database.Db.RecordDlqEvent` | apps/worker/db.py:119-143 | one row is appended for a missing id or a text when the statement succeeds, none for an id that is null or not a text |
| `Database.ConflictNeedsSameInstant` | infra/db/migrations/001_initial.sql:65-78 | a second insert of one event leaves a single new row if and only if it runs at the same instant |
| `Database.ReplayIsLastWriteWins` | apps/worker/db.py:97-116 | after any sequence of upserts a device's row counts them and holds the fields of the last one |
| `Database.LateReadingWins` | apps/worker/db.py:104-109 | an older reading upserted later moves `last_seen_at` back |
| `Idempotency.IdempotencyGuard.SetNx` | apps/worker/idempotency.py:48-53 | succeeds exactly on a key that is not live, which then expires one lease later; a live key keeps its expiry |
| `Idempotency.IdempotencyGuard.IsNew` | apps/worker/idempotency.py:39-66 | verdict, keys, leases and duplicate count for an answer, a lost command and a lost answer |
| `Idempotency.IdempotencyGuard.AreNewBatch` | apps/worker/idempotency.py:68-109 | the batch gives the verdicts and keys of claiming its ids one by one: true exactly for the first occurrence of each id that was not live; each new key gets one lease from now, live ones keep theirs, and each refusal is counted as a duplicate |
| `Idempotency.IdempotencyGuard.SetEachNx` | apps/worker/idempotency.py:87-96 | the replies of the pipelined round trip are those of single claims in order |
| `Idempotency.IdempotencyGuard.AreNewBatchBroken` | apps/worker/idempotency.py:110-116 | a pipeline that raises admits the whole batch and keeps the claims already applied |
| `Idempotency.IdempotencyGuard.Release` | apps/worker/idempotency.py:118-126 | the key is gone, or the command was lost; nothing is raised |
| `Idempotency.ClaimEachExact` | apps/worker/idempotency.py:48-59 | closed form of claiming a list in order, repeats included |
| `Idempotency.CountFalseExact` | apps/worker/idempotency.py:100-106 | the duplicates counted for a batch are its refused positions |
| `Idempotency.WonExact` | apps/worker/idempotency.py:48-59 | in any timed run a claim succeeds if and only if no earlier successful claim of the id is both unexpired and unreleased |
| `Idempotency.ClaimsSpaced` | apps/worker/idempotency.py:48-53 | two successful claims of one id without a release between them are at least one lease apart |
| `Idempotency.WinsBounded` | apps/worker/idempotency.py:48-53 | in a span shorter than the lease, successful claims of an id are at most one more than its releases |
| `Idempotency.FirstClaimWins` | apps/worker/idempotency.py:87-107 | however batches interleave, the first claim of an id ever, or since a release, wins, and until the next release or the end of its lease it is the only one |
| `Retry.WithRetry` | apps/worker/retry.py:55-95 | number of calls, the last error, tables after all attempts, and every sleep, for any stream of outcomes and any number of attempts; each call before the last failed with something else than `ValueError`, and the last one did not, or was the last allowed |
| `Retry.LoopEnds` | apps/worker/retry.py:34-95 | a `ValueError` ends the loop at that call, any other error is followed by another call while one is left, and what is raised is the last error |
| `Retry.AttemptedRows` | apps/worker/handlers.py:93-108 | after any attempts the old rows are untouched and the new ones are this event's, one for each instant at which an attempt wrote |
| `Retry.CallCountUnique` | apps/worker/retry.py:65-92 | stopping at the first settling attempt, or when the attempts run out, determines the number of calls |
| `Retry.TotalSleepBounds` | apps/worker/retry.py:40-52 | total sleep lies within the jitter factor of the nominal total, whatever the draws |
| `Retry.TotalSleepAttained` | apps/worker/retry.py:51-52 | both ends of that range are attained |
| `Retry.NominalClosedForm` | apps/worker/retry.py:45-50 | the nominal total is a geometric series up to the cap (equal steps for a multiplier of one), then the cap for each further attempt |
| `Retry.CapExists` | apps/worker/retry.py:50 | every policy reaches its cap once and stays there, so the closed form covers every run |
| `Retry.GrowthCondition` | apps/worker/retry.py:50-52 | below the cap, jittered delays grow for all draws if and only if multiplier × (1 − jitter) > 1 + jitter |
| `Retry.DefaultNominals` | apps/worker/config.py:29-33 | the shipped delays: 1, 2, 4, 8, 16 s, then the cap of 30 s |
| `Retry.DefaultBudget` | apps/worker/config.py:29-33 | five failures sleep 15 s nominally and 11.25 s to 18.75 s with jitter, both ends attained |
| `DeadLetters.DlqPublisher.Send` | apps/worker/retry.py:107-178 | counter, topic, audit row and escaping exception for every way publishing and recording can end: a broken producer or an id that is not text escapes before the audit row |
| `Handlers.EventProcessor.SendToDlq` | apps/worker/handlers.py:71-78 | the envelope carries reason, retry count, partition and offset; the exception escapes exactly when the producer broke |
| `Handlers.EventProcessor.constructor` | apps/worker/processor.py:28-41 | the four handlers, in their order |
| `Handlers.EventProcessor.Process` | apps/worker/processor.py:43-66 | final state and escaping exception are those of the nested chain; the gauge of active tasks ends where it began |
| `Handlers.EventProcessor.CheckIdempotency` | apps/worker/handlers.py:45-57 | one level of the nested chain: claim, skip or go on |
| `Handlers.EventProcessor.CheckSchema` | apps/worker/handlers.py:64-78 | one level of the nested chain: anything raised by validation or further down becomes a validation envelope |
| `Handlers.EventProcessor.Persist` | apps/worker/handlers.py:86-132 | one level of the nested chain: retried insert, and on any exception release and envelope |
| `Handlers.EventProcessor.UpdateDeviceState` | apps/worker/handlers.py:136-163 | one level of the nested chain: best-effort upsert, count, mark, go on |
| `Handlers.ChainByDecision` | apps/worker/handlers.py:45-163 | the nested chain, decision by decision |
| `Handlers.ChainIsFlat` | apps/worker/handlers.py:45-163 | the chain with its three catching layers refines a flat decision: whole final state, the `processed` flag, and when an exception escapes |
| `Handlers.NeverRaises` | apps/worker/processor.py:49-52 | with an id that is missing, falsy or a string and a producer that fails only with broker errors, `process` never raises and tries at most one envelope |
| `Handlers.AlienIdRaises` | apps/worker/retry.py:145-149 | an id that is not a string and is not taken for a duplicate always raises out of `process` and reaches neither topic nor audit table |
| `Handlers.ExactlyOneOutcome` | apps/worker/handlers.py:86-132 | exactly one of the counters processed, duplicate and DLQ moves, the last at most twice; only then are there new envelopes and audit rows, about this message, and each reports either a failed write with the number of insert calls or a validation error with zero |
| `Outcomes.KeylessGoesToDlq` | apps/worker/handlers.py:46-51 | an event without an id, or with a falsy one, claims nothing, is never a duplicate and goes to the DLQ |
| `Outcomes.RefusedExactly` | apps/worker/handlers.py:53-55 | a refused event counts as a duplicate and changes nothing else |
| `Outcomes.DuplicateExactly` | apps/worker/idempotency.py:39-59 | with Redis answering, a text id is a duplicate exactly when its key was live, and otherwise exactly that key is taken |
| `Outcomes.ClaimFailsOpen` | apps/worker/idempotency.py:60-66 | a claim that raises lets the event through whatever keys are live; the key is taken if the command had arrived |
| `Outcomes.InvalidExactly` | apps/worker/handlers.py:64-78 | an unacceptable event: whole final state, one validation envelope and audit row with retry count zero |
| `Outcomes.WriteFailedExactly` | apps/worker/handlers.py:107-132 | a failed write: whole final state; rows the attempts left, the released key, an envelope naming the error (`DB_ERROR` for PostgreSQL errors only) and the number of calls, a second one if the first broke the producer |
| `Outcomes.ValueErrorNotRetried` | apps/worker/retry.py:68-74 | a `ValueError` at the first call means one call and an envelope with retry count one |
| `Outcomes.StoredExactly` | apps/worker/handlers.py:107-162 | a stored event: whole final state; its row carries the raw fields, the device is updated as far as that got, nothing is sent |
| `Outcomes.ValidationCatches` | apps/worker/handlers.py:66-78 | in any chain, whatever is raised below the validation handler becomes a validation envelope |
| `Outcomes.PersistenceCatches` | apps/worker/handlers.py:107-132 | in any chain, whatever is raised below the persistence handler after a successful write still releases the claim and is reported with the number of calls |
| `Outcomes.NoEventNothingDone` | apps/worker/handlers.py:87-88 | without a validated event the later handlers do nothing and do not call on |
| `Outcomes.EveryEventIsOneCase` | apps/worker/handlers.py:45-163 | these cases are all there are |
| `Pipeline.Pipeline.Use` | libs/shared/pipeline.py:34-37 | the handler goes to the end of the list, and the pipeline itself is returned |
| `Pipeline.Pipeline.DispatchFrom` | libs/shared/pipeline.py:48-64 | past the end nothing happens; else the handler runs with the rest of the chain as its continuation, and terminates by the length left |
| `Pipeline.Pipeline.Execute` | libs/shared/pipeline.py:39-64 | the run is the recursive dispatch from the head; a trace id is set only when handlers exist and none was given |
| `Pipeline.DispatchNests` | libs/shared/pipeline.py:48-64 | entries and exits nest like brackets, whatever handlers do or raise, however often they call on, even if they act differently each time they are started |
| `Pipeline.SecondChance` | libs/shared/pipeline.py:48-58 | a caller may call on again after an exception, and the handler below is started anew with its first run behind it |
| `Pipeline.EntriesArePrefix` | libs/shared/pipeline.py:48-64 | if each handler calls on at most once, the handlers entered are, in order and once each, those up to the first that does not call on |
| `WorkerPipeline.HandlersReached` | apps/worker/processor.py:36-41 | one handler is entered for a duplicate, two for an invalid event, three for a failed write, four for a stored one; the pipeline raises exactly when `process` does |
| `RateLimiter.RateLimiter.IsAllowed` | apps/ingestion/rate_limiter.py:43-61 | counter and verdict of the script; unreachable Redis admits and changes nothing |
| `RateLimiter.IntervalBound` | apps/ingestion/rate_limiter.py:23-35 | any half-open interval of `k` windows, wherever it starts, admits at most `(k + 1) * limit - 1` requests of a device |
| `RateLimiter.IntervalBoundAttained` | apps/ingestion/rate_limiter.py:23-35 | for every `k`, limit and window of two ticks or more some run meets that bound |
| `RateLimiter.NothingAdmitted` | apps/ingestion/rate_limiter.py:31-33 | a limit below one admits nothing |
| `RateLimiter.NeverRefused` | apps/ingestion/rate_limiter.py:27-34 | a device with at most `limit` requests in every window-length interval is never refused |
| `RateLimiter.Isolated` | apps/ingestion/rate_limiter.py:48-54 | every verdict is the one the device gets on its own |
| `Consumer.ConsumerLoop.constructor` | apps/worker/consumer.py:51-52 | all permits free, no tasks, fetching from the committed offsets |
| `Consumer.ConsumerLoop.Turn` | apps/worker/consumer.py:110-149 | one message is taken and counted; a task is created exactly when a permit is free |
| `Consumer.ConsumerLoop.Resume` | apps/worker/consumer.py:119-149 | the waiting loop takes the permit and creates its task |
| `Consumer.ConsumerLoop.Settle` | apps/worker/consumer.py:129-138 | a task whose `process` returned goes on to commit, one whose `process` raised goes straight to `finally` |
| `Consumer.ConsumerLoop.Commit` | apps/worker/consumer.py:136 | the partition's committed offset becomes this task's offset plus one whatever it was, other partitions keep theirs; a commit that raises changes none |
| `Consumer.CommitMovesBack` | apps/worker/consumer.py:119-149 | of any two messages in flight the later can commit first, and the earlier then moves the committed offset back |
| `Consumer.ReturnsAndCommits` | apps/worker/consumer.py:129-136 | in any state a task whose processing returns can commit its own offset plus one, touching no other partition and no other task |
| `Consumer.ConsumerLoop.Release` | apps/worker/consumer.py:137-149 | the permit is free again and the task is gone from the set |
| `Consumer.ConsumerLoop.TaskWrapper` | apps/worker/consumer.py:123-138 | commit only after `process` returned; the permit comes back exactly once whatever raised |
| `Consumer.ConsumerLoop.Restart` | apps/worker/consumer.py:97-100 | tasks are dropped undrained, permits are new, fetching resumes at the committed offsets |
| `Consumer.StepInv` | apps/worker/consumer.py:103-149 | every action keeps the invariant: permits, offset ranges, distinct messages in flight, nothing fetched forgotten, commits justified, skips bounded |
| `Consumer.RunInv` | apps/worker/consumer.py:103-149 | so every reachable state has it |
| `Consumer.SkipWindow` | apps/worker/consumer.py:103-149 | over any run: permits conserved; at most `max - 1` unprocessed messages in flight lie below the committed offset; at most `(max - 1) × crashes` skipped; every committed offset is the session's first or follows a processed message |
| `Consumer.BelowCommitted` | apps/worker/consumer.py:123-138 | of a message below the committed offset `process` has returned or raised, or it was skipped at a crash, or it is in flight and passed over |
| `Consumer.NoSkips` | apps/worker/consumer.py:119-136 | without crashes, or with one permit, no restart begins past a message whose `process` never ended |
| `Consumer.SkippedForever` | apps/worker/consumer.py:136 | for a message skipped in this way `process` ends in no continuation of the run |
| `Consumer.SkipBoundAttained` | apps/worker/consumer.py:119-149 | for every number of permits one crash can skip `max - 1` messages whose `process` never ended |
| `Tasks.StepHistory` | apps/worker/handlers.py:45-163 | every step of every task keeps the table of what each program point implies about claims, inserts, upserts and envelopes |
| `Tasks.ExpiresOne` | apps/worker/idempotency.py:52 | expiry takes one key and nothing else |
| `TaskLaws.StepInv` | apps/worker/handlers.py:45-163 | every step, failure, expiry and crash keeps all laws of this module |
| `TaskLaws.RunInv` | apps/worker/handlers.py:45-163 | so every reachable state obeys them |
| `TaskLaws.OneOutcome` | apps/worker/handlers.py:45-132 | a finished task has exactly one of three outcomes: duplicate, inserted, DLQ |
| `TaskLaws.StoredNeverRejected` | apps/worker/handlers.py:107-132 | in every reachable state no inserted event has an envelope of the same task, and no skipped one has either |
| `TaskLaws.NoUnexplainedLoss` | apps/worker/handlers.py:45-132 | with no task running, every message is accounted for by its own task or one with its key that inserted, tried the DLQ or died in a crash; every live key is that of a task that inserted, died, or failed and could not give it back (validation failure, lost release, release of another spelling) |
| `TaskLaws.DeviceStateConserved` | apps/worker/handlers.py:136-163 | per device: completed inserts = event count + failed upserts + tasks between insert and upsert + tasks crashed there |
| `TaskLaws.StateRowIsLatestUpsert` | apps/worker/db.py:97-116 | a state row has its device row and shows the latest upsert of the interleaving, not the latest time stamp |
| `Uniqueness.AtMostOneRow` | apps/worker/handlers.py:45-57 | in every clean run whose ids are each spelt in one way, under any interleaving, redelivery and crash: rows of an id plus tasks that hold a claim on it and may still write are at most one, and while there is one every message with that id finds its key taken |
| `Uniqueness.UpperCaseIsOneSpelling` | libs/shared/models.py:53 | what the ingestion service forwards meets the condition on spelling |
| `Uniqueness.NeedsRedis` | apps/worker/idempotency.py:60-66 | one failing `SET` in a run that is clean otherwise gives two rows |
| `Uniqueness.NeedsLease` | apps/worker/idempotency.py:48-53 | so does one expired or evicted key |
| `Uniqueness.NeedsOneSpelling` | libs/shared/models.py:48-53 | so do two spellings of one id |
| `Uniqueness.NeedsCleanFailures` | apps/worker/handlers.py:93-108 | so does one insert that writes its row and still raises |
| `Confluence.ReplayAbsorbed` | apps/worker/handlers.py:45-57 | after any healthy run at rest the events table is the set of distinct acceptable events, one row each, and every device's count is the number of its distinct events |
| `Confluence.Confluent` | apps/worker/consumer.py:110-149 | two healthy runs over the same distinct events end with the same rows, ingestion times aside, and the same counts |
| `Solo.UninterruptedIsProcess` | apps/worker/handlers.py:45-163 | a task that runs alone reaches the state and the exception of one call of `process` |
| `Worker.AfterInv` | apps/worker/consumer.py:103-149 | every run of the whole worker keeps the laws of the loop, of the tasks, and of the link between them |
| `Worker.TaskNeverBlocked` | apps/worker/consumer.py:123-138 | putting loop and tasks together blocks no step of a task |
| `Worker.LoopNeverBlocked` | apps/worker/consumer.py:119-149 | nor any step of the loop |
| `Worker.NoUnexplainedLoss` | apps/worker/consumer.py:103-149 | when the worker rests, every message it ever fetched is accounted for by an insert, a DLQ attempt or a crash |
| `Worker.CountersConserved` | apps/worker/consumer.py:110-141 | in every reachable state of a session: consumed + second envelopes = processed + duplicates + DLQ + undecided tasks + the message in the loop |
| `Worker.EffectivelyOnce` | apps/worker/consumer.py:103-149 | after a healthy run over the whole log, each distinct acceptable event has exactly one row and is counted once for its device |
| `Delivery.AtLeastOnce` | apps/worker/consumer.py:5-6 | in every run whose restarts find no message at risk, whatever else fails, a worker at rest has delivered every message it has reached |
| `Losses.RestartExact` | apps/worker/consumer.py:97-149 | in every reachable state: the session after a restart delivers whatever it reaches, for all that can happen in it, if and only if no undelivered message is below the committed offset or has its key taken |
| `Losses.OrphanedClaim` | apps/worker/handlers.py:45-57 | for every acceptable event and number of permits, one restart between claim and write loses it though every external call succeeds and no commit runs ahead |
| `Delivery.QuietIsSafe` | apps/worker/consumer.py:97-100 | restarts that interrupt no running task put nothing at risk |
| `Delivery.QuietRestartsLoseNothing` | apps/worker/consumer.py:5-6 | a run with only such restarts delivers every message it reaches |
| `Delivery.CrashFreeLosesNothing` | apps/worker/consumer.py:5-6 | in particular a run without restarts: each message reached, or one with its key, has a row, an envelope on the topic or a failed publish |
| `Delivery.RowOrEnvelope` | apps/worker/handlers.py:69-78 | with publishes that arrive and ids that can be encoded, each has a row or an envelope on the topic |

## Left out

- Clients of Kafka, Redis, PostgreSQL and MQTT, network I/O, connection pools and start-up: each call is a step whose answer is a parameter.
- Rebalancing between consumers: the listener only logs; there is one consumer that restarts. A group without commits starts at offset 0.
- Deserialiser errors and message values that are not JSON objects; strings that cannot be encoded as UTF-8.
- Non-ASCII ids: the case-insensitive pattern also admits two non-ASCII letters, which the model rejects.
- ISO 8601 and JSON text, Pydantic's coercions: stamps are a reading and an offset, payloads opaque maps; overflow of `datetime` at the ends of its range.
- `DLQEvent`, message texts, fresh ids and times inside envelopes, `worker_id`, the trace id in the worker, logs, latency metrics, metric labels, `RETRY_ATTEMPTS` and `DB_ERRORS`.
- Floating-point rounding of delays; delays are reals and the random draw is a parameter.
- Cancellation inside a handler: stopping the worker is one crash step that drops every task between two awaits.
- Tasks.StepHistory: time does not pass in this machine; a key may expire at any step, which allows more than Redis does. Leases with times are treated in `Idempotency`.
- Consumer.ConsumerLoop.Turn: lag sampling, which only reads, and the wait for the next message.
- Losses.RestartExact: a worker with no permits at all, which never starts a task.
- RateLimiter.NeverRefused: a window of zero ticks, where a limit of zero refuses everybody.
- RateLimiter.IntervalBoundAttained: a window of a single tick, which admits no more than `limit` requests.
- Confluence.ReplayAbsorbed: runs in which crashes interrupt tasks or inserts fail for good; `TaskLaws.NoUnexplainedLoss` says what those leave.
- Ingestion handlers, queue, dispatcher and MQTT reconnection; `produce_batch`; capacity figures; the simulator and deployment files.
- DLQ replay, sharding, circuit breaker and consistency modes, which are documented but not implemented.
