# The quote-update job system, verified

The service takes requests for a fresh exchange rate, queues one job per request, and lets workers
fetch the rate and record it. A completion writes three tables in one transaction: it appends to
`quotes_history`, overwrites the pair's row in `quotes`, and marks the row of `quote_updates` done. No
status write looks at the status it replaces (only the claim filters on one), so every safety claim
rests on how jobs are handed out, on the row locks, and on the transaction. This project models that
system in Dafny and proves the claims for every interleaving of any number of workers, with a failure
possible at every statement.

`dafny verify dfyconfig.toml` checks everything.

## How the model is built

- `Tables.dfy`: the three tables and each SQL statement, with the column types that matter
  (microsecond timestamps, six-decimal prices of at most eighteen digits).
- `Statements.dfy`: what the column types and each statement come to, row by row.
- `Machine.dfy`: the system as a state machine. One step is one statement, one row visited by a
  claim, one fetch returning, or one message moving. Writes of an open transaction stay in the
  actor's program counter; the locks it holds are read off that counter. No rule forbids two actors
  on one job: `Ownership.dfy` proves that it never happens.
- `Serial.dfy`, `Consistency.dfy`, `Guarantees.dfy`, `Locks.dfy`, `Fairness.dfy`: what every run keeps.
- `Provenance.dfy`: which steps of a run a row's values come from.
- `Progress.dfy`: how any run can be finished.
- `Scenarios.dfy`: runs that exist, among them those that break what the documents promise.
- `Service.dfy`, `Requests.dfy`, `Http.dfy`: the methods of the service, the channel, its workers, the
  requests and their handler, with the branches and loops of the source. Each statement is a step of
  the machine or of the key store, and any number of steps of everyone else may run before it, so all
  guarantees about runs apply to them. Creating a job is one step of both, which ties the bounds on
  keys to the work the system does. What comes from outside (a fetch's answer, a panic, a drawn id,
  the time, a cancellation) is a parameter. Each object counts in a ghost field the times the server
  or a connection failed it, so its methods can say that an error has a cause.
- `UnitOfWork.dfy`: `Do`, the transaction carried in the context, and the repositories that look it up,
  while other sessions commit.
- `Idempotency.dfy`: the expiring key store under any number of requests.
- `Provider.dfy`, `Rounding.dfy`: the rate selection, over real numbers, and what storage keeps of it.
- `Timestamps.dfy`: the timestamp text that crosses the gRPC call.
- `InMemory.dfy`, `Retry.dfy`: the in-memory repositories and the retrying HTTP client.

## What the step rules assume

- PostgreSQL, READ COMMITTED: row locks last until the transaction ends; a statement sees committed
  rows; `FOR UPDATE SKIP LOCKED` passes over a locked row and rechecks the status of one it locks; the
  foreign-key check takes `FOR KEY SHARE`, which conflicts with a claim's lock but not with a status
  update; an insert waits for an uncommitted row with its unique key; `NOW()` is the start of the
  transaction. A commit that returns an error has rolled back. A status write outside a transaction
  that returns an error did not take effect. Job ids are well-formed UUIDs.
- Redis: set-if-absent is one step, a key with a TTL is live until its clock passes the TTL, and
  a command or its reply may be lost.
- A fetch answers for the pair it was asked for (`Provider.GetAnswersThePair` proves it for the
  exchange-rates provider), takes any time, and may fail or panic. The status
  write after a fetch that failed by its context's deadline fails too.
- One database is used by one worker mode (`README.md:31` of the service).

The rules themselves, in `Machine.dfy`: `DoCreate` is `internal/infrastructure/pg/update_job_repo.go:26-46`;
`DoClaim`, `Visit`, `DoReturn`, `DoLose`, `DoCancel` are the claim statement and its row loop
(`internal/infrastructure/pg/update_job_repo.go:147-177`); `DoMark` and `DoWriteFailed` are the two
status writes outside a transaction (`internal/application/service.go:156`,
`internal/application/service.go:120`); `DoBegin` to `DoCommit` are `internal/infrastructure/pg/uow.go:25-36`
around `internal/application/service.go:124-140`; `DoEnqueue`, `DoReject`, `DoHandoff`, `DoReceive` are the
channel and the dispatcher (`internal/bootstrap/providers.go:57-80`, `internal/bootstrap/providers.go:235-260`,
`internal/infrastructure/worker/chan_worker.go:30-45`).

## Where code and documentation differ

- `docs/DESIGN_DECISIONS.md:45` says history records every retrieved rate. The insert drops a rate whose
  pair, microsecond and source are already there, and a rate whose transaction fails is not recorded at
  all. `Scenarios.HistoryDropsARate` and `Scenarios.FailureDropsARate` give the runs,
  `Guarantees.OwnHistoryRow` the exact condition, and `Guarantees.GetsOwnRow` the one to check before a
  completion. A done job may therefore never show a price.
- For the same reason `quotes` and `quotes_history` can show two prices for one pair and instant:
  `Scenarios.PricesDisagree` gives the run, `Guarantees.KeepsPricesEqual` says exactly which completion
  makes them differ, and `Guarantees.PricesAgreeExactly` exactly when they agree after a run.
- `docs/DESIGN_DECISIONS.md:46` says `quotes` holds the latest quote. It holds the last one committed:
  `Scenarios.QuotesGoBack` gives the run, `Guarantees.NewestExactly` and `Guarantees.KeepsNewest` say
  exactly when it is the newest.
- `docs/DESIGN_DECISIONS.md:81-82` says every job is marked as processing. Channel and gRPC jobs never are
  (`Guarantees.Lifecycle`); in polling mode every job is
  (`Guarantees.ThroughProcessing`).
- A fetch that fails by the channel worker's five-second deadline should mark its job failed. The write
  uses the same expired context, so it cannot: `Scenarios.LateFetchIsNotRecorded` gives the run,
  `Guarantees.LateStaysQueued` says that the job is never marked afterwards, and
  `Guarantees.RecordedUnlessLate` that the failure can be recorded exactly when the context has not
  expired. `Progress.EveryJobEnds` has every failure in time recorded when nothing else goes wrong.
- A request whose message the full channel refuses has already been answered 202
  (`Http.HttpServer.RequestQuoteUpdate`), and its job stays queued for good (`Http.RefusedStaysQueued`).
- The in-memory claim reads a limit of zero or less as no limit; the SQL claim takes none for zero and
  fails for less.
- A response with an exact-pair key is believed even against its own table (`Provider.ExactKeyCanGain`);
  `Provider.ClosedPathGains`, `Provider.OneExactKey` and `Provider.TwoExactKeys` say exactly when that gains.

## Model

| member | source | states |
|---|---|---|
| `Guarantees.DeliveredOnce` | internal/infrastructure/pg/update_job_repo.go:147-177 | In any run of any number of workers whose claims read stale snapshots, two steps that hand out jobs never hand out the same one, and one claim returns no job twice. |
| `Guarantees.FetchedOnce` | internal/application/service.go:146-163 | Over any run two fetches are for two different jobs: nobody runs a completion for a job twice. |
| `Guarantees.HeldByOne` | internal/application/service.go:146-163 | In any state satisfying the invariant a job is in the hands of at most one actor. |
| `Ownership.NextKeeps` | internal/infrastructure/pg/update_job_repo.go:149-161 | Every step of anyone keeps work lists, picked rows, channel and inbox disjoint and conflicting row locks in different hands; the claim's lock and its status recheck are what the claim case needs. |
| `Consistency.NextInv` | internal/application/service.go:111-165 | Every step keeps the whole invariant: ownership, replayability of the log, agreement of the tables, and no forgotten job. |
| `Consistency.NextGrows` | internal/infrastructure/pg/update_job_repo.go:105-122 | No step of anyone changes a finished or given-up job, a job's pair or request time, a recorded fetch, or the order of delivery so far, although no update is guarded. |
| `Serial.CommitIsSerial` | internal/application/service.go:123-141 | The writes a transaction buffered over several interleaved steps are exactly what its three statements would do in one go at commit time. |
| `Serial.ClaimIsSerial` | internal/infrastructure/pg/update_job_repo.go:149-161 | When a claim commits, every row it picked is still there and still queued, so it equals a claim run alone. |
| `Guarantees.SerialEquivalence` | internal/application/service.go:123-141 | After any run the committed tables are those of running the commits one at a time in commit order. |
| `Guarantees.TablesFromLog` | internal/infrastructure/pg/quote_repo.go:50-54 | The quotes row of a pair is the last quote committed for it, and a history row the first one committed with its key; no other rows exist. |
| `Serial.QuotesAreLastCommitted` | internal/infrastructure/pg/quote_repo.go:50-54 | In a serial replay of any log the overwrite table equals an independent "last quote in the log" reading, in both directions. |
| `Serial.HistoryIsFirstCommitted` | internal/infrastructure/pg/quote_repo.go:74-77 | In a serial replay of any log the history equals an independent "first completion with this key" reading, in both directions. |
| `Guarantees.OwnHistoryRow` | internal/infrastructure/pg/quote_repo.go:73-78 | For every rate any job fetched: it has a history row of its own if and only if the job's completion was committed and no earlier commit used its key (`Statements.SameKey`: pair, microsecond and source); the row is that rate's; and a job given up after its fetch has none. |
| `Guarantees.GetsOwnRow` | internal/infrastructure/pg/quote_repo.go:73-78 | A completion gets a history row of its own if and only if history does not hold its key already (`Statements.SameKey`: pair, microsecond and source). |
| `Statements.MicrosOf` | internal/infrastructure/pg/migrations/2_add_quotes_history.up.sql:5 | For every instant in nanoseconds, the stored one is the microsecond it lies in. |
| `Statements.SameKey` | internal/infrastructure/pg/quote_repo.go:74-77 | Two quotes have one history key if and only if pair and source are the same and both instants lie in one microsecond. |
| `Statements.BothRecorded` | internal/infrastructure/pg/quote_repo.go:74-77 | Two rates a microsecond or more apart have different keys, and completing one job after the other leaves a row for each, whatever the tables held under other keys. |
| `Statements.FitsExactly` | internal/infrastructure/pg/migrations/1_init.up.sql:6 | The prices that overflow the column are those of at least 999999999999.9999995 in size. |
| `Statements.TiesAwayFromZero` | internal/infrastructure/pg/migrations/1_init.up.sql:6 | A price halfway between two millionths is stored as the one farther from zero, on both sides. |
| `Statements.InsertEffect` | internal/infrastructure/pg/update_job_repo.go:26-46 | The insert of a job fails exactly for a taken id; else it adds one queued row with the pair and the creation's time and changes nothing else. |
| `Statements.StatusEffect` | internal/infrastructure/pg/update_job_repo.go:105-122 | A status write fails exactly for a missing row; else it changes status and error of that row, and its completion time exactly when the new status ends the job. |
| `Provenance.CreatedAt` | internal/infrastructure/pg/update_job_repo.go:26-46 | In any run a row's pair and request time are those of the step that created it. |
| `Provenance.DoneBecause` | internal/application/service.go:111-142 | In any run a done job was fetched, then its transaction began, then it committed, in one actor's hands; its completion time is that of the begin. |
| `Provenance.FailedBecause` | internal/application/service.go:117-122 | In any run a failed job's fetch failed in time, its error is that fetch's, and its completion time is that of the status write. |
| `Scenarios.HistoryDropsARate` | docs/DESIGN_DECISIONS.md:45 | For any two quotes of one pair and one instant, whatever their prices, a run exists after which both jobs are done and history has no row for the second: the documented promise fails. |
| `Scenarios.FailureDropsARate` | docs/DESIGN_DECISIONS.md:45 | For any quote a run exists in which it is fetched, its transaction fails, and history stays empty. |
| `Guarantees.KeepsNewest` | docs/DESIGN_DECISIONS.md:46 | Whatever the tables were, a completion leaves its pair's quotes row the newest if and only if history holds nothing newer of the pair than its quote; the rows of other pairs are as new as they were. |
| `Guarantees.NewestExactly` | docs/DESIGN_DECISIONS.md:46 | After any run the quotes row is at least as new as all history of its pair if and only if no completion committed for the pair is newer than the last one committed. |
| `Scenarios.QuotesGoBack` | internal/infrastructure/pg/quote_repo.go:50-54 | For any two quotes of a pair a run exists that ends with the older one in the quotes table and the newer one in history. |
| `Progress.EveryJobEnds` | internal/application/service.go:111-165 | Any run of any mode, whatever failed in it, can be continued until everybody is idle, nothing waits, and every job is done, failed or given up; each job not given up whose rate was not fetched yet, or fits its column, ends done, and each whose fetch failed in time ends failed. |
| `Progress.CompletesAlone` | internal/application/service.go:111-142 | In every mode, any run that ends with an actor about to fetch and nobody else in a claim or transaction can be continued to that job's completion with any quote for its pair that fits its column, leaving exactly the tables of the three writes. |
| `Progress.DeliversAlone` | internal/bootstrap/providers.go:57-80 | In channel and gRPC mode, while nobody else is in a claim or transaction, the oldest message can reach an idle actor. |
| `Progress.ClaimsAlone` | internal/infrastructure/pg/update_job_repo.go:147-177 | In polling mode, while nobody else is in a claim or transaction, an idle worker can claim the oldest queued job. |
| `Guarantees.TablesAgree` | internal/application/service.go:124-140 | After any run each quotes row has a history row with its pair and instant, with the same price if prices depend on pair and instant only, and each done job has a history row for its own pair, the instant it fetched and its mode's source. |
| `Guarantees.KeepsPricesEqual` | internal/infrastructure/pg/quote_repo.go:50-78 | A completion leaves its pair's two prices equal if and only if history did not already hold another price under its key; the prices of other pairs agree after it exactly when they did before. |
| `Guarantees.PricesAgreeExactly` | internal/infrastructure/pg/quote_repo.go:50-78 | After any run the two prices of a pair agree if and only if the first commit with the key of the pair's last committed quote had that quote's price. |
| `Scenarios.PricesDisagree` | internal/infrastructure/pg/quote_repo.go:73-78 | For any quote and any other price a run exists after which history and quotes show two prices for one pair and instant. |
| `Guarantees.Lifecycle` | internal/infrastructure/pg/update_job_repo.go:105-122 | Between any two points of any run a status only moves forward, a finished row is frozen whole, the completion time is set exactly when finished, the error exactly when failed, and processing exists in polling mode only. |
| `Guarantees.ThroughProcessing` | docs/DESIGN_DECISIONS.md:77 | In any polling-mode run a job that was queued at one point and is not at a later one was processing in between. |
| `Guarantees.LateStaysQueued` | internal/infrastructure/worker/chan_worker.go:57-61 | A job whose fetch fails by the channel worker's deadline is never marked failed, at any later point of any run: its row stays queued. |
| `Guarantees.RecordedUnlessLate` | internal/application/service.go:117-122 | In channel and gRPC mode no other actor ever holds the row of a job whose fetch failed, so the failure can be recorded if and only if its context has not expired. |
| `Guarantees.FailedUnlessLost` | internal/application/service.go:117-122 | After any run in any mode, a job whose fetch failed and whose worker is through with it is marked failed if and only if it was not given up. |
| `Scenarios.LateFetchIsNotRecorded` | internal/infrastructure/worker/chan_worker.go:57-61 | For every capacity, pair and message there is a run in which the fetch fails by the deadline, everybody becomes idle, and the job is given up, still queued. |
| `Guarantees.StepMoves` | internal/application/service.go:117-140 | One step of anyone leaves each status or makes one of the legal moves of the mode. |
| `Guarantees.PollerView` | internal/infrastructure/pg/update_job_repo.go:49-65 | After any run a poll of an existing job succeeds, shows a price only when done, shows one exactly when the job has a history row, and then that row's price and instant; without one it shows the completion time of a finished job and the request time of any other; no job has two rows. |
| `Guarantees.GetByIdShows` | internal/infrastructure/pg/update_job_repo.go:49-83 | Whatever the tables hold: an unknown id is not found; a known one shows its row, with price and instant of its newest history row, or without one no price and the time it ended or else was asked for. |
| `Guarantees.RowsNameTheMode` | internal/infrastructure/worker/chan_worker.go:57-61 | After any run every history row carries the source text of the worker mode, "db", "chan" or "grpc". |
| `Guarantees.OneRowEach` | internal/infrastructure/pg/update_job_repo.go:58-64 | A history row's job is done and fetched exactly that key, so the lateral join's ordering never has two rows to choose from. |
| `Guarantees.Conservation` | internal/application/service.go:150-164 | After any run each created job is in exactly one place: queued, awaiting dispatch, in the channel, in one actor's hands, given up, done, or failed; and the channel is within its capacity. |
| `Guarantees.LostBecause` | internal/application/service.go:117-122 | A given-up job was given up at a step of its run that was a refused message, a failed claim read, a failed status write or a failed transaction, of that job. |
| `Guarantees.Fifo` | internal/bootstrap/providers.go:57-64 | Over any run of the channel mode, the jobs delivered followed by those buffered only grow at the end: delivery order is acceptance order. |
| `Locks.NoCycle` | internal/application/service.go:123-141 | No chain of actors, of any length, each waiting for a lock the next one holds, returns to its start. |
| `Locks.WaitsRise` | internal/application/service.go:123-141 | Whoever holds a lock another waits for is inside a statement or transaction and strictly further in the order history key, shared job row, quotes row, job row. |
| `Locks.BlockedByHolder` | internal/infrastructure/pg/update_job_repo.go:155 | An open transaction or claim that cannot take its next step waits for an actual holder; a claim and a commit can always go on. |
| `Locks.StatusWriteWaits` | internal/application/service.go:118-121 | A status write outside a transaction that cannot reach its row waits for a claim, and that claim can take its next step. |
| `Locks.SomeoneGoes` | internal/infrastructure/pg/uow.go:25-36 | Whenever a transaction or claim is open, one that is open can take its next step. |
| `Locks.Drain` | internal/infrastructure/pg/uow.go:25-36 | Any run can be continued, by open transactions and claims alone and within the statements they have left, until none is open. |
| `Locks.EveryWayDrains` | internal/infrastructure/pg/uow.go:25-36 | Whoever goes on and in whatever order, a stretch in which only open transactions and claims go on is no longer than the statements they had left, and one that cannot be made longer leaves none open. |
| `Fairness.BoundedWaiting` | internal/infrastructure/pg/update_job_repo.go:149-161 | If claims do not overlap and later requests carry later times, a job with r queued jobs no younger than it (itself included) is out of the queue once n successful claims of limit at least L made n * L >= r. |
| `Fairness.SkipsOnlyHeld` | internal/infrastructure/pg/update_job_repo.go:155 | Overlapping or not, a queued row a claim visits is picked, or another claim holds it. |
| `Fairness.AheadShrinks` | internal/infrastructure/pg/update_job_repo.go:149-154 | Along any such stretch each successful claim takes at least L of the jobs ahead, or all of them. |
| `Service.Server.Others` | internal/bootstrap/providers.go:210-218 | Whatever the other workers, requests and the clock do, this actor's list and program point, its undelivered messages and its key reservations stay, and nothing finished or given up changes. |
| `Service.FXRatesService.ClaimQueued` | internal/infrastructure/pg/update_job_repo.go:147-177 | Whoever runs in between, the claim returns at most `limit` distinct jobs that were never handed to anyone before, exactly those that its last step, the commit of a claim of that limit, hands out, and they become this worker's list; an error has a cause (the server or the connection failed, or the limit is negative) and leaves it none. |
| `Service.FXRatesService.ProcessQueueBatch` | internal/application/service.go:146-165 | For any claimed list, answers and failures: nil exactly when the claim worked and every claimed job is done, else the claim's error or that of the first job not done, which is the one its fetch or transaction failed with in the run and, if the job is marked failed, the one its row shows; every job is fetched and settled for good. If nothing failed and no lock was in the way, the answers alone decide every outcome. |
| `Service.FXRatesService.ProcessClaimed` | internal/application/service.go:154-164 | The loop settles every job whatever the earlier ones did, each outcome is the error its job failed with in the run, and the result is the first error among them; if nothing failed and no lock was in the way each outcome is what its answer makes it. |
| `Service.FirstErrorNone` | internal/application/service.go:154-164 | There is no first error exactly when no outcome is one. |
| `Service.FirstErrorAt` | internal/application/service.go:160-162 | The first error is that of some outcome, and all outcomes before it are none. |
| `Service.FXRatesService.CompleteQuoteUpdate` | internal/application/service.go:111-142 | Nil exactly when the job is done, for good; otherwise the error is the message with which its fetch or transaction failed in the run, and a failed row shows it; after a failed fetch the job is failed, or given up when that write fails, as it must on an expired context; a fetched quote that could not be stored leaves the row as it was, for good. If nothing failed and no lock was in the way, the answer alone decides: a quote that fits is stored, and a failure in time is recorded. |
| `Service.FXRatesService.Do` | internal/infrastructure/pg/uow.go:25-36 | Among interleaved actors: nil exactly when the job was completed, otherwise it is given up with its row as it was; if nothing failed and no lock was in the way it completes every price that fits, and a price that does not always ends in an error. |
| `Service.FXRatesService.UpdateStatusFailed` | internal/application/service.go:118-121 | The job ends failed with the fetch's message, or given up when that write fails, which needs an expired context, a failure or a lock in the way. |
| `Service.FXRatesService.ProcessOne` | internal/infrastructure/worker/chan_worker.go:47-62 | The message is settled even when the fetch panics; a panic always ends in an error, which the row shows unless that write failed; a fetch that fails by the context's deadline leaves the job queued for good; if nothing failed and no lock was in the way, the answer or the panic alone decides. |
| `Service.FXRatesService.Start` | internal/infrastructure/worker/chan_worker.go:30-45 | Over any number of rounds before it is cancelled or closed, a worker handles distinct jobs, each fetched as answered, none of them ever delivered to any worker before, and a round handles nothing only if the channel was empty. |
| `Service.ChanBus.Enqueue` | internal/bootstrap/providers.go:62-78 | Nil exactly when the job is buffered or delivered, an error exactly when it is refused for good, which happens only if the buffer was full after the call began, and which tells a cancelled request from a full queue; the buffer stays within its capacity. |
| `Http.HttpServer.RequestQuoteUpdate` | internal/infrastructure/http/server.go:31-92 | 400 exactly for a body that is not JSON, a malformed pair or a missing key, and then nothing changes; 202 first exactly for a new job of the pair, with the request's time, on a new reservation of the key, sent before the dispatch, so a refused job is answered 202 too; 409 exactly for a conflict, and then a reservation of the key is less than a TTL old, and not this request's unless something failed; 500 exactly for a store or table error, and then something failed; no 202 for a key that stays live throughout the call. |
| `Http.RefusedStaysQueued` | internal/infrastructure/http/server.go:84-91 | In channel and gRPC mode a job whose message was refused or never dispatched is not delivered afterwards, and its row stays queued, unchanged, for good. |
| `Scenarios.ChannelRefuses` | internal/bootstrap/providers.go:62-78 | For every capacity there is a run that fills the channel and has the next message refused. |
| `Http.OneKeyFewFetches` | internal/application/service.go:53-75 | In a span T the requests with one key cause at most floor(T / TTL) + 1 fetches and as many completions, whatever the requests, workers and failures, and every fetched job has its request on record. |
| `UnitOfWork.Uow.Do` | internal/infrastructure/pg/uow.go:25-36 | All or nothing through the carried transaction, while other sessions commit in between: on nil it made exactly one commit, and that is the three writes on the committed tables just before it; on an error, at any point, it made none, and the error has a cause: the server or the connection failed, another open transaction held one of the three rows, the price does not fit, or the job was not there; no transaction is left open. |
| `UnitOfWork.CommitsLikeTheSystem` | internal/infrastructure/pg/uow.go:35 | That one commit, made on the tables a committing actor of the job system sees, leaves the tables that actor's commit step leaves. |
| `UnitOfWork.Uow.WriteQuote` | internal/application/service.go:123-141 | Nothing is committed and no other transaction is touched; nil means that the transaction holds exactly the rows of the three writes, as they still apply to whatever others have committed meanwhile. |
| `UnitOfWork.QuoteRepo.AppendHistory` | internal/infrastructure/pg/quote_repo.go:73-99 | With a transaction in the context only that transaction gains the row, as seen through its own view; without one the insert is a commit of its own. |
| `UnitOfWork.QuoteRepo.Upsert` | internal/infrastructure/pg/quote_repo.go:49-71 | The same lookup for the overwrite of the quotes row. |
| `UnitOfWork.UpdateJobRepo.UpdateStatus` | internal/infrastructure/pg/update_job_repo.go:105-145 | The same lookup for the status write; nil means the row was there, and a missing row is an error although the statement succeeds. |
| `UnitOfWork.RowsComplete` | internal/application/service.go:123-141 | Rows that still are those of the three writes make, put over the committed tables, one completion of them. |
| `UnitOfWork.WrittenIsRun` | internal/infrastructure/pg/quote_repo.go:49-99 | Putting a statement's rows over the tables is what the statement does to them. |
| `UnitOfWork.CompleteEffect` | internal/application/service.go:124-140 | Row by row what the three writes change and what they leave alone, and that they fail exactly for an overflowing price or a missing job. |
| `Idempotency.SpacedByTtl` | internal/infrastructure/redis/idempotency_store.go:19-25 | In any run of concurrent requests two reservations of one key are at least a TTL apart, and without a TTL there is only one. |
| `Idempotency.GrantsBound` | internal/infrastructure/redis/idempotency_store.go:19-25 | Any span T holds at most floor(T / TTL) + 1 reservations of a key. |
| `Idempotency.JobsBound` | internal/application/service.go:53-75 | Jobs map one to one to the reservations they used, so the same bound holds for the jobs created on a key. |
| `Idempotency.NextKeeps` | internal/infrastructure/redis/idempotency_store.go:19-25 | Every step of anyone keeps the spacing of reservations and the one-to-one use of them. |
| `Idempotency.NoneWhileLive` | internal/infrastructure/redis/idempotency_store.go:19-25 | Between two points of any run nobody reserves a key that stays live throughout. |
| `Idempotency.LiveExactly` | internal/infrastructure/redis/idempotency_store.go:19-25 | A key is taken if and only if some reservation of it was made less than a TTL ago, or ever without a TTL; so it is free again when its last one expires. |
| `Requests.Api.TryReserve` | internal/infrastructure/redis/idempotency_store.go:19-25 | Yes means a new reservation of the key at this moment, held by this request alone; no means that a reservation of the key is less than a TTL old; unless something failed, the answer is yes if and only if there was none when the command ran, and after a no this request has reserved nothing. |
| `Requests.Api.CreateQueued` | internal/infrastructure/pg/update_job_repo.go:26-46 | A new queued job of the pair with the given id and time, on the request's reservation if it has one; an error has a cause, and the reservation is given up all the same. |
| `Requests.Api.RequestQuoteUpdate` | internal/application/service.go:53-75 | The reply follows from what the store and the job table answered, asked in that order and only as needed; a request without a key changes nothing; an accepted one has a new job of the pair on a reservation made during the call, which a key live throughout rules out; a conflict means a reservation less than a TTL old, and not this request's unless something failed; any other error means that something failed; a failed creation leaves its reservation spent. |
| `Provider.GetAnswersThePair` | internal/infrastructure/provider/exchangeratesapi.go:97-101 | Every quote is for a valid pair, the one asked for, at the response's whole second, and only from a successful response. |
| `Provider.ExactKeyAnswers` | internal/infrastructure/provider/exchangeratesapi.go:69-70 | A response with the pair's exact key answers with that rate, whatever else it holds or lacks. |
| `Provider.GetExactly` | internal/infrastructure/provider/exchangeratesapi.go:40-102 | Get answers if and only if the pair is valid, the response is a success, and it has the pair's exact key or prices both currencies, the base not at zero; the rate is the key's, else the ratio of the two prices. |
| `Provider.ValidPairs` | internal/domain/pair.go:15-24 | A pair is valid if and only if it is two different currencies of the three, with a slash between. |
| `Provider.CrossIsRatio` | internal/infrastructure/provider/exchangeratesapi.go:72-95 | All three branches are v(quote) / v(base) with v(provider base) = 1, and they fail exactly when that is undefined. |
| `Provider.AlongPath` | internal/infrastructure/provider/exchangeratesapi.go:68-96 | Along a path of pairs of any length the product of the prices turns the value of its first currency into that of its last, times the factors by which exact-pair keys depart from the table. |
| `Provider.ClosedPath` | internal/infrastructure/provider/exchangeratesapi.go:68-96 | Along a closed path of any length the prices Get answers multiply to exactly the product of those factors. |
| `Provider.ClosedPathGains` | internal/infrastructure/provider/exchangeratesapi.go:68-96 | Every closed path has such factors, and its prices multiply to 1 if and only if they do. |
| `Provider.NoArbitrage` | internal/infrastructure/provider/exchangeratesapi.go:68-96 | So without exact-pair keys, or with keys that agree with the table, they multiply to 1. |
| `Provider.QuotedIsAnswered` | internal/infrastructure/provider/exchangeratesapi.go:68-96 | A response that prices both currencies gets an answer for the pair, whatever its keys. |
| `Provider.OneExactKey` | internal/infrastructure/provider/exchangeratesapi.go:68-96 | With an exact key for one direction only, there and back again is worth 1 if and only if the key agrees with the table. |
| `Provider.TwoExactKeys` | internal/infrastructure/provider/exchangeratesapi.go:68-69 | With a key for each direction both are answered as they are, whatever the table says, so only their product counts. |
| `Provider.ExactKeyCanGain` | internal/infrastructure/provider/exchangeratesapi.go:68-69 | A response whose exact-pair key disagrees, and a round trip on it worth 1.5. |
| `Provider.RebaseKeepsPrices` | internal/infrastructure/provider/exchangeratesapi.go:72-95 | Telling the same table from another provider base changes no rate and no rate's existence. |
| `Provider.RebaseKeepsAnswers` | internal/infrastructure/provider/exchangeratesapi.go:40-102 | For a pair without an exact key, neither does any answer of Get change, nor whether there is one. |
| `Provider.StoredRoundTrip` | internal/infrastructure/provider/exchangeratesapi.go:80-94 | A pair's price and its reverse's, both stored, multiply to 1 within (x + y) * 0.5e-6 + 0.25e-12. |
| `Rounding.StoredWithin` | internal/infrastructure/pg/migrations/1_init.up.sql:6 | A stored price is within 0.5e-6 of the real one. |
| `Rounding.StoredIsNearest` | internal/infrastructure/pg/migrations/1_init.up.sql:6 | No other six-decimal number is nearer. |
| `Rounding.StoredTwice` | internal/infrastructure/pg/migrations/2_add_quotes_history.up.sql:4 | Storing a stored price again changes nothing. |
| `Timestamps.InstantRoundTrip` | internal/infrastructure/grpc/rateserver/server.go:39-43 | Printing and parsing gives an instant back, in any whole-minute zone, exactly when its year has four digits; a longer year is a parse error, never a wrong instant. |
| `Timestamps.EpochDayIs` | internal/infrastructure/provider/exchangeratesapi.go:100 | The day the instants are counted from is the first of January 1970 of the calendar. |
| `Timestamps.DaysToMonthClosed` | internal/infrastructure/grpc/rateserver/server.go:42 | The days before each month follow the closed form of the Gregorian calendar, so every month has its length. |
| `Timestamps.DaysToYearClosed` | internal/infrastructure/grpc/rateserver/server.go:42 | The days before each year follow the closed form of its leap rule. |
| `Timestamps.TextForm` | internal/infrastructure/grpc/rateserver/server.go:42 | Field by field, for every instant of a four-digit year, the text is the date-time of section 5.6 of RFC 3339, with at most nine fraction digits and no trailing zero, of the civil day and the time of day counted from year 0, and its offset. |
| `Timestamps.ParseMeans` | internal/bootstrap/providers.go:239-253 | What the dispatcher accepts is a date of the calendar, a time of day, perhaps a fraction, and an offset, and it reads them as that moment. |
| `Timestamps.TextsDiffer` | internal/infrastructure/grpc/rateserver/server.go:42 | Different instants never print alike, whatever their zones and however many digits their years have. |
| `Timestamps.GrpcIsTransparent` | internal/bootstrap/providers.go:239-253 | The dispatcher completes the job with exactly the quote or error that FetchQuote returned to the worker, if and only if a quote's year has four digits, and never with another quote. |
| `InMemory.FakeUpdateJobRepo.ClaimQueued` | internal/infrastructure/http/fakes.go:108-124 | For any job map, any iteration order and any limit: distinct ids, exactly those go from queued to processing, every other job is unchanged, and min(limit, queued) of them, or all when the limit is zero or less. |
| `InMemory.ClaimsAddUp` | internal/infrastructure/http/fakes.go:108-124 | Over n claims in a row no job is returned twice, the jobs that moved are those returned, and they are min(n * limit, queued), or all of them. |
| `InMemory.FakeUpdateJobRepo.CreateQueued` | internal/infrastructure/http/fakes.go:55-64 | Every job gets one constant id and takes the place of the one before it; the other jobs stay. |
| `InMemory.OneJobEver` | internal/infrastructure/http/fakes.go:55-64 | After any number of requests, at least one, the store has one job of theirs, queued, for the last pair, and every other job as before. |
| `InMemory.FakeUpdateJobRepo.UpdateStatus` | internal/infrastructure/http/fakes.go:79-94 | Fails exactly for an unknown id and then changes nothing; otherwise changes that job's status, error and time only. |
| `InMemory.FakeQuoteRepo.Upsert` | internal/infrastructure/http/fakes.go:36-44 | The store holds the quote under its pair and is otherwise unchanged, made or not. |
| `InMemory.FakeQuoteRepo.GetLast` | internal/infrastructure/http/fakes.go:23-34 | The stored quote exactly when the store was made and has one for the pair; otherwise not found. |
| `Retry.DoJSON` | internal/infrastructure/httpx/httpx.go:48-74 | Requests go on exactly while replies are missing or server errors and there may be more; a 200 whose body decodes is the only success, and every other last reply has its own error, or the caller's cancellation if another try was due. |

## Left out

- `Service.FXRatesService.Start`: covers the rounds before it is cancelled or the channel is closed; a write in progress at that moment is not modelled.
- `Provider.Get`: building the URL is left out, and arithmetic is over reals, so floating-point rounding, NaN and infinities are not modelled.
- `Timestamps.InstantRoundTrip`: local years before 0 and zones with odd seconds are not modelled; the responses the provider gives are in UTC.
- `Retry.DoJSON`: when the back-off library stops is any point the list of replies ends; its delays and jitter, and the text of error bodies, are left out.
- `Requests.Api.TryReserve`: negative TTLs and TTLs below Redis's clock unit are left out.
- Panics anywhere but in a fetch, process crashes, and a status write that took effect although its error came back.
- A commit that took effect although its error came back: the step rules take a commit error as a rollback.
- Several worker modes on one database: the service is deployed with one each.
- `NoopUoW`: it promises no atomicity.
- Row ids, insertion times and the order of history rows that share nothing but a pair.
- `DbWorker`: its ticker calls ProcessQueueBatch and logs the result; it replaces a limit of zero or less by the configured one.
- The constant-price provider, `GetLast` over SQL, status-string conversions: they would only add easy members.
- HTTP routing, middleware, generated API code, configuration, logging, wiring and migrations.
