# Disbursement service: a verified model

This project models the parts of the disbursement service whose correctness rests on guarded SQL
statements, row locks, transactions and shared memory, and proves what those parts are for. It has five
components and their composition.

1. **Idempotent creation** (`Idempotency*.dfy`). `Create` claims a key, verifies the claim under a row lock,
   inserts the disbursement and its audit event, completes the claim and commits, or rolls back and releases.
   Any number of calls interleave statement by statement; they stall past their lease, crash, fail, or have a
   commit land whose acknowledgement is lost. Safety, and the truth of what callers are told, are proved for
   every run.
2. **Lifecycle, outbox, relay and projection** (`Lifecycle*.dfy`, `Relay.dfy`, `Pipeline.dfy`,
   `RelayBatch.dfy`). Creations, decisions and deletions race through guarded updates; each commits its audit
   event with the change; any number of relay workers copy the events into the log at least once; cleanup
   prunes. The lifecycle and the relay also run together as one machine.
3. **Refresh sessions** (`Sessions.dfy`, `SessionChains.dfy`, `SessionAnswers.dfy`). Login, refresh and logout
   interleave; the replaced-by links form chains, and each caller is told the truth.
4. **Limiter and worker** (`RateLimiter.dfy`, `RelayWorker.dfy`). Classes with the program's own fields and
   loops, tied by ghost state to a reference limiter and to a machine of all interleavings.
5. **Listing and redaction** (`Query.dfy`, `Listing.dfy`, `Redaction.dfy`, `Domain.dfy`, `Audit.dfy`).
6. **The write side as a whole** (`Service.dfy`). Creation with its protocol, decisions, deletions, the relay
   and its cleanup as one machine over shared tables; the promises of 1 and 2 carry over to it.

## How the system is modelled

- Time is an integer number of nanoseconds and stored timestamps are exact; the database rounds to
  microseconds. Integers are unbounded.
- Generated UUIDs and tokens are fresh; `NIL` is the zero UUID. SHA-256 over canonical JSON is one function
  (`fingerprint`), as are the JSON encoding of a record, rendering a response, trimming, case folding and
  ILIKE. Nothing is assumed about them.
- One action of a machine is one SQL statement, one commit or one failure. A transaction's writes stay staged
  until it commits; a conditional update under READ COMMITTED is one guarded step that needs the row's lock
  and judges the latest committed row. Locks end with the transaction.
- Histories inside the machine states record what became visible. No step reads them.
- A commit, and any statement of the relay, may take effect although it reported an error; a claim insert that
  does so is an insert followed by a crash. Statements inside a transaction that fail roll it back.
- The limiter takes the client's resolved address and the clock, which does not run backwards.

Where the code and the repository's documents differ, the model follows the code: a finaliser that loses a
race is told ALREADY_FINALIZED, not CONCURRENT_MODIFICATION; deleting a decided row gives status 400; a failed
delivery is retried after a constant five seconds. Four promises hold only under a condition, and the exact
condition is part of the result:

- Creations under one key a replay window apart in claim time: two closer ones always have an early insert
  between them (`CloseCreationsNeedEarlyInsert`), and a call that waits at its insert can create inside an
  earlier creation's window if and only if it read the clock before that window ended
  (`CreatesInsideWindowIff`). `StalledInsertBreaksSpacing` shows that this occurs. The rule that a second
  creation needs an expired row in between holds without any clock condition.
- A relay worker stopped only by its own causes: this holds if and only if, when it was started, every earlier
  worker was already leaving or gone (`OwnCausesOnlyIff`). `StaleWorkerStopsSuccessor` gives the run where a
  cancelled predecessor closes its successor's channel.
- A true reason for a losing call: it is true if and only if the row is not open when the call asks why
  (`LosersAreToldTheTruth`). `ConcurrentDeleteHappens` gives the run where a delete that found nothing is told
  of a conflict, which the service reports as ALREADY_FINALIZED, while the row is open.
- Listing fails exactly for a status that is not a value of the enumeration, and is refused exactly for a
  negative page, a negative limit or one above 100 (`Listing.ListDisbursements`).

## Model

| member | source | states |
|---|---|---|
| `Idempotency.ClassifierAgreesWithGuard` | internal/repository/postgres/idempotency.go:36-57 | the Go classifier asks for a reclaim exactly when the SQL predicate holds, and otherwise gives the atomic claim's answer |
| `Idempotency.RetryAfterOutlastsLease` | internal/repository/postgres/idempotency.go:264-272 | a caller that waits as told finds the lease over, and waits under a second too long |
| `IdempotencyInvariant.LockedRowStays` | internal/repository/postgres/idempotency.go:29-34 | while one call holds the row's lock, no step of another call changes the row |
| `IdempotencyInvariant.StepKeepsSafe` | internal/service/disbursement/service.go:51-173 | every step of every call keeps identifiers apart, locks matched to phases, staged writes right for their phase and every key row explained by a call |
| `IdempotencyInvariant.RunIsSafe` | internal/repository/postgres/transaction.go:25-40 | that holds in every reachable state |
| `IdempotencyHistory.StepEffect` | internal/repository/postgres/idempotency.go:105-129 | every step has one of four visible effects: none (or dropping the caller's own unfinished claim), a claim the guard allows, a creation, a replay |
| `IdempotencyHistory.RunIsRecorded` | internal/service/disbursement/service.go:120-173 | in every run completed rows, claims, creations and replays trace back to the entries that made them |
| `IdempotencyTheorems.SecondCreationNeedsExpiry` | internal/service/disbursement/service.go:99-173 | two disbursements commit under one (user, endpoint, key) only if a claim in between took over the first one's completed row at or after its expiry |
| `IdempotencyTheorems.RowsAreCreations` | internal/service/disbursement/service.go:120-163 | in the Create protocol by itself, every row as created comes from exactly one recorded creation and was stored with its created event |
| `IdempotencyTheorems.RowsShowTheirRequests` | internal/service/disbursement/service.go:58-87 | a row as created holds its request's recipient, account, folded bank code, amount and note, the fee of the amount's tier and the requesting user, pending and undeleted |
| `IdempotencyTheorems.RequestsAreValid` | internal/domain/idempotency.go:70-84 | every claim request's lease ends after its time and before its expiry, with scope and claim set, and every completion has a 2xx status and a disbursement |
| `IdempotencyTheorems.OnlyOwnUnfinishedClaimsAreReleased` | internal/repository/postgres/idempotency.go:78-84 | a key disappears only by a release of the caller's own unfinished claim, so never once completed |
| `IdempotencyTheorems.CompletedRowsOutliveEverythingElse` | internal/repository/postgres/idempotency.go:36-84 | a completed row stays unchanged until a claim at or after its expiry replaces it |
| `IdempotencyTheorems.VerifiedRowIsHeld` | internal/repository/postgres/idempotency.go:131-150 | from a successful ownership check to the end of the transaction the row is the caller's claim and nobody else changes it |
| `IdempotencyTheorems.CompletionUpdatesExactlyOneRow` | internal/repository/postgres/idempotency.go:152-184 | the completing update always finds its row |
| `IdempotencyTheorems.StaleOwnerChangesNothing` | internal/service/disbursement/service.go:166-170 | once a call's claim was taken over, nothing it still does, its release included, changes any table |
| `IdempotencyTheorems.AcquireRefinesAtomicClaim` | internal/repository/postgres/idempotency.go:186-231 | each step of a two-step acquire is silent or does exactly what the atomic claim would do on the row at that moment; "changed before reclaim" never happens |
| `IdempotencyTheorems.CloseCreationsNeedEarlyInsert` | internal/repository/postgres/idempotency.go:20-57 | two creations under one key claimed less than the replay window apart have between them a take-over of the expired row and then an insert under that key by a call that read the clock before the window ended |
| `IdempotencyTheorems.CreationsAreSpaced` | internal/service/idempotency/coordinator.go:68-78 | so if a key's inserts see a clock no earlier than its claims before them, claim times of two creations are at least the replay window apart, through lease reclaims, expiry reclaims and release-then-insert |
| `IdempotencyStall.WaitingCallCanCreate` | internal/service/disbursement/service.go:99-163 | from every state of every run every call that waits at its insert has a continuation in which it commits its creation, whatever is in the slot and whoever holds the lock |
| `IdempotencyStall.CreatesInsideWindowIff` | internal/service/idempotency/coordinator.go:68-79 | the exact condition: a call waiting at its insert can create inside an earlier creation's window if and only if it read the clock before that window ended |
| `IdempotencyStall.StalledInsertBreaksSpacing` | internal/service/idempotency/coordinator.go:68-79 | the case occurs: for every configuration and valid input there is a run with two creations closer than the replay window |
| `IdempotencyTheorems.ReplaysAreTrue` | internal/repository/postgres/idempotency.go:253-263 | every replayed answer has status 201, names a row that an equal request created under the same key, inside its window, and its body is the rendering of that row as created |
| `IdempotencyTheorems.ReplaysInOneWindowAgree` | internal/repository/postgres/idempotency.go:253-263 | replays with no take-over of a completed row between them are equal |
| `IdempotencyTheorems.CompletedRecordsAreReadable` | internal/repository/postgres/idempotency.go:274-287 | every completed row holds a full 2xx response, so the branch for an invalid record is never taken |
| `IdempotencyAnswers.SuccessIsTrue` | internal/service/disbursement/service.go:166-172 | a Create call told of success has committed its creation, and the record it was given is the stored one |
| `IdempotencyAnswers.CreatorsLearnOfIt` | internal/service/disbursement/service.go:166-172 | a call that has created is told so, unless it crashed or its commit was not acknowledged |
| `IdempotencyAnswers.ReplayedCallersGetTheRow` | internal/service/disbursement/service.go:104-112 | a call answered with a replay gets status 201, a stored row's identifier and the rendering of that row |
| `IdempotencyAnswers.VerifyTellsOwnership` | internal/repository/postgres/idempotency.go:131-150 | a caller goes on exactly if the row is its own unfinished claim; a missing row and another's row each fail with their own reason |
| `IdempotencyAnswers.ReleaseTellsReason` | internal/service/disbursement/service.go:166-170 | after the release the caller is told the reason its transaction failed for |
| `IdempotencyAnswers.CommitTellsAcknowledgement` | internal/repository/postgres/transaction.go:25-40 | an acknowledged commit is a success or a grant; any other is a dependency failure |
| `IdempotencyAnswers.LockTellsMissing` | internal/repository/postgres/idempotency.go:233-251 | a row gone between insert and lock fails the claim; one still there is loaded as it is |
| `LifecycleProof.StepKeepsSafe` | internal/service/disbursement/service.go:212-250 | every statement of every transaction keeps locks, pre-reads, staged rows and identifiers consistent |
| `LifecycleTheorems.AuditHistoryReconstructsRow` | internal/service/disbursement/service.go:281-320 | a row's events are one creation and at most one approval, rejection or deletion; the first after-snapshot is the created row, from which the second mutation started; the last is the row; a before-snapshot the pre-read found is the row just before the update |
| `LifecycleTheorems.ClosedRowShowsItsEvent` | internal/repository/postgres/disbursement.go:37-51 | a closed row is the created one plus exactly the decision or deletion its second event tells, with that event's actor and time, and nothing else changed |
| `LifecycleTheorems.ClosingIsFinal` | internal/repository/postgres/disbursement.go:37-51 | of all finalise and delete calls on one row at most one takes effect and what it leaves never changes |
| `LifecycleTheorems.CommittedRowsMeetSchema` | migrations/000001_initial_schema.up.sql:29-57 | every committed row meets every check of the table |
| `LifecycleTheorems.LosersAreToldTheTruth` | internal/repository/postgres/disbursement.go:242-322 | a losing call is told the truth if and only if the row is not open when it asks why, which fails only for a delete whose pre-read found nothing; a reason about an existing row holds ever after |
| `LifecycleTheorems.ConcurrentRepliesUnreachable` | internal/repository/postgres/disbursement.go:282-322 | "concurrent status update conflict" is never given; "concurrent delete conflict" only to a delete whose pre-read found nothing |
| `LifecycleTheorems.ConcurrentDeleteHappens` | internal/service/disbursement/service.go:284-287 | that delete does occur, with the row still open |
| `LifecycleAnswers.LosersGetTheirOwnReply` | internal/repository/postgres/disbursement.go:263-322 | by kind of call and row: a finaliser gets not found exactly for an absent or deleted row and already finalised exactly for a decided one; a delete gets not found exactly for an absent row, the stored record exactly for a deleted one and not deletable exactly for a decided one |
| `LifecycleAnswers.PreReadTells` | internal/service/disbursement/service.go:212-218 | the pre-read finds exactly the undeleted row, and stops a finaliser, and only that, when there is none |
| `LifecycleAnswers.UpdateTakesOpenRows` | internal/repository/postgres/disbursement.go:37-51 | a guarded update takes hold exactly of an open row, and stamps it with its own time |
| `LifecycleAnswers.CommitTellsTheRow` | internal/service/disbursement/service.go:197-269 | a commit stores the staged row with one event that names the target, the actor and the request, all set; the caller is given the stored row exactly if it hears of the commit |
| `LifecycleAnswers.SuccessIsTrue` | internal/service/disbursement/service.go:264-268 | whoever is given a record has committed it, under the actor and request of its own call |
| `LifecycleAnswers.ChangesAreAttributed` | internal/service/disbursement/service.go:205-250 | from pre-read over update to commit: the committed row bears the update's time and the event the call's target, actor and request |
| `Relay.StepKeepsInv` | internal/repository/postgres/outbox.go:32-63 | fetching, projecting, marking, recording failures (also after an insert that landed unacknowledged), crashing and cleaning up, by any workers, keep every committed event pending or logged, each logged once, all contents unaltered |
| `Relay.ProjectionOnce` | internal/repository/postgres/projection.go:14-21 | on-conflict-do-nothing leaves the event in the log, once, and keeps what was there |
| `Pipeline.NoEventLostOrDoubled` | internal/service/audit/relay.go:97-136 | every committed mutation's event is pending in the outbox or stands exactly once, unaltered, in audit_logs |
| `Pipeline.LogsAreGenuine` | internal/repository/postgres/projection.go:31-81 | every audit_logs row is the event of a committed mutation |
| `Pipeline.LogsHideSensitiveValues` | internal/domain/audit.go:54-96 | no snapshot in audit_logs shows a sensitive value, in any run |
| `Pipeline.OnlyProjectedEventsArePruned` | internal/repository/postgres/outbox.go:61-63 | a row leaves the outbox exactly at a cleanup whose cutoff is after its delivery, and then its event is in the log |
| `Pipeline.DeliveredNeverReverts` | internal/repository/postgres/outbox.go:45-53 | once delivered, an event is never pending again, stale failure records included |
| `Pipeline.DrainedLogsTellRow` | internal/service/disbursement/service.go:120-163 | with nothing pending, audit_logs alone holds each row's trail, no other event of that row, and its last after-snapshot is the row |
| `Service.StepKeepsInv` | internal/service/disbursement/service.go:51-327 | Create with its protocol, finalising, deleting, relaying and cleanup, interleaved over the same tables: every statement keeps both sides consistent and in step with each other |
| `Service.CreateIsNeverHeldUp` | internal/service/disbursement/service.go:120-163 | in every reachable state a statement that the Create protocol allows is possible on the shared tables too |
| `Service.CreationsAreServed` | internal/service/disbursement/service.go:120-163 | whoever decided, deleted, relayed or pruned since: a creation's row is there and still holds its request, its trail starts with its creation, and its event is pending or stands once in the log |
| `Service.EveryRowWasRequested` | internal/service/disbursement/service.go:51-173 | every row of the table comes from exactly one creation of one Create call |
| `Service.TwoRowsNeedExpiry` | internal/service/disbursement/service.go:99-173 | two rows of the table made under one key, whatever became of them, have a claim between them that took over the first one's completed key row at or after its expiry |
| `Service.ReplaysNameServedRows` | internal/repository/postgres/idempotency.go:253-263 | a replayed answer has status 201, names a row still in the table, made by an equal request under the same key, and its body is the rendering of that row as it was created |
| `RelayBatch.Earliest` | internal/repository/postgres/outbox.go:36-41 | an available row that none precedes in (available_at, occurred_at) |
| `RelayBatch.SelectPending` | internal/repository/postgres/outbox.go:32-43 | distinct available rows, as many as the limit allows, none left out that comes before one chosen |
| `RelayBatch.RelayService.FetchPending` | internal/repository/postgres/outbox.go:139-172 | leases exactly the chosen rows and returns their events, as one fetch of the relay machine |
| `RelayBatch.RelayService.CleanupDelivered` | internal/repository/postgres/outbox.go:230-248 | removes exactly the rows delivered before now less the retention (30 days if none is set), reports how many, and all their events are in the log |
| `RelayBatch.BatchSize` | internal/service/audit/relay.go:79-81 | the requested size if positive, otherwise 50 |
| `RelayBatch.RelayService.HandleEvent` | internal/service/audit/relay.go:98-135 | the exact outbox row and log after projecting and marking one event, or after any of its statements reported an error, whether or not that statement took effect |
| `RelayBatch.RelayService.ProcessBatch` | internal/service/audit/relay.go:78-139 | whatever fails, the count is the number of rows this call turned delivered without an error from the mark; without faults it is min(batch, available), earliest first, and no other row moves; the exact condition of an error return |
| `RelayBatch.RelayService.RunBatches` | internal/service/audit/relay.go:78-139 | of the n rows due at an instant no clock precedes, k fault-free batches of size b deliver exactly min(k·b, n), whatever else comes due meanwhile, and all once k·b reaches n; the counts add up to the rows delivered, each of which some clock had reached |
| `RelayBatch.NothingElseDue` | internal/service/audit/relay.go:78-139 | if nothing else comes due, the batches deliver min(k·b, n) rows in all |
| `RelayBatch.EarliestGoFirst` | internal/repository/postgres/outbox.go:36-41 | a batch that leaves a row due at the start behind has delivered only such rows |
| `RelayBatch.RunKeepsInv` | internal/service/audit/relay.go:97-136 | every statement of the class is a step of the relay machine, so the conservation invariant holds throughout |
| `RelayWorker.Channel.Close` | internal/service/audit/relay.go:253 | a channel may be closed only while open |
| `RelayWorker.RelayService.StartWorker` | internal/service/audit/relay.go:175-186 | refused exactly while running; otherwise two fresh open channels become current |
| `RelayWorker.RelayService.StopWorker` | internal/service/audit/relay.go:240-257 | closes the current stop channel exactly when running and hands back the channel to wait on |
| `RelayWorker.RelayService.StopFromWorker` | internal/service/audit/relay.go:259-267 | the same for a worker whose context is done |
| `RelayWorker.ChannelsCloseOnce` | internal/service/audit/relay.go:175-267 | in every interleaving no stop or done channel is closed twice, at most one stop channel is open, the flag is set exactly when a current one exists and is open, and a done channel is closed exactly when its worker has exited |
| `RelayWorker.StopWaitsForCurrentWorker` | internal/service/audit/relay.go:240-257 | a stop returns only after the worker current at its locked step has exited |
| `RelayWorker.StopCanReturn` | internal/service/audit/relay.go:240-257 | no stop is stuck: from every state every waiting stop has a continuation in which it returns |
| `RelayWorker.WhoStopsAWorker` | internal/service/audit/relay.go:220-224 | a worker is stopped by a stop call, by its own context, or by an earlier worker that had not yet chosen how to leave when it was started |
| `RelayWorker.EarlierWorkerCanStop` | internal/service/audit/relay.go:220-267 | any such earlier worker has a continuation in which it closes the new worker's channel |
| `RelayWorker.OwnCausesOnlyIff` | internal/service/audit/relay.go:220-267 | a worker just started can be stopped only by its own causes if and only if every earlier worker is already leaving or gone |
| `RelayWorker.StaleWorkerStopsSuccessor` | internal/service/audit/relay.go:220-267 | the other case occurs: a cancelled predecessor closes its successor's channel |
| `Sessions.StepKeepsSafe` | internal/repository/postgres/refresh_session.go:65-119 | every statement of login, refresh and logout keeps identifiers and tokens apart, locks matched and staged sessions tied to the rows they change |
| `SessionChains.SessionsFormChains` | internal/service/auth/service.go:186-229 | in every run the sessions are disjoint chains, one per login and starting with the session it opened, each with that login's user, linked only to the next, and only the last of a chain may be unrevoked |
| `SessionChains.LinksAreAcyclic` | internal/repository/postgres/refresh_session.go:65-101 | following links never leads back |
| `SessionChains.LinksAreInjective` | internal/repository/postgres/refresh_session.go:65-101 | two sessions never share a successor |
| `SessionChains.RevocationIsFinal` | internal/repository/postgres/refresh_session.go:103-119 | user and token never change; a revoked session never changes at all |
| `SessionChains.OneSuccessorPerToken` | internal/service/auth/service.go:175-229 | of all refreshes of one token at most one commits |
| `SessionChains.OnlyLiveSessionsAreRefreshed` | internal/repository/postgres/refresh_session.go:80-101 | a committed refresh revokes exactly one session, unrevoked and unexpired until then, and links it to one new unrevoked session of the same user; no other session changes |
| `SessionAnswers.LogoutRevokes` | internal/service/auth/service.go:247-258 | a logout that ended well has left every session of its token revoked, for ever |
| `SessionAnswers.LogoutStagesRevocation` | internal/repository/postgres/refresh_session.go:103-119 | a logout of an unrevoked session stages its revocation at the logout's time; of a revoked one it changes nothing |
| `SessionAnswers.LogoutChangesOneSession` | internal/repository/postgres/refresh_session.go:103-119 | its commit revokes that session at that time, links it to nothing, and changes no other |
| `SessionAnswers.SuccessIsTrue` | internal/service/auth/service.go:159-161 | a login or refresh told of success has committed its new session |
| `SessionAnswers.FindTells` | internal/service/auth/service.go:187-199 | a refresh is turned away at its look-up exactly if no live session has its token |
| `SessionAnswers.LosingRefreshFails` | internal/repository/postgres/refresh_session.go:79-101 | a refresh fails at its revocation exactly if no live session has its token any more, and leaves no trace |
| `SessionAnswers.LoginStoresItsSession` | internal/repository/postgres/refresh_session.go:34-48 | a login's commit stores exactly the session it asked for |
| `SessionAnswers.RefreshStoresItsSession` | internal/repository/postgres/refresh_session.go:65-79 | a refresh's commit stores the token and expiry its insert asked for, unrevoked |
| `RateLimiter.PruningIsHarmless` | internal/httpapi/middleware/rate_limit.go:62-68 | pruning early loses nothing a later look would count |
| `RateLimiter.IntervalHoldsAtMostLimit` | internal/httpapi/middleware/rate_limit.go:70 | spaced instants: no closed interval of the window's length holds more than the limit |
| `RateLimiter.Prune` | internal/httpapi/middleware/rate_limit.go:62-68 | exactly the recent instants, in order |
| `RateLimiter.Limiter.Handle` | internal/httpapi/middleware/rate_limit.go:47-106 | accepts exactly when a limiter that keeps every accepted instant since the client's last eviction would; evicts only at capacity, and then a client whose latest accepted request is the oldest |
| `RateLimiter.Limiter.Tick` | internal/httpapi/middleware/rate_limit.go:54-60 | periodic cleanup changes no later answer |
| `RateLimiter.Limiter.MakeRoom` | internal/httpapi/middleware/rate_limit.go:89-95 | afterwards there is room, and at most one client was forgotten, the least recent |
| `RateLimiter.Limiter.EvictLeastRecent` | internal/httpapi/middleware/rate_limit.go:108-123 | no list is empty when indexed; the client removed has the oldest latest instant |
| `RateLimiter.Limiter.CleanupExpired` | internal/httpapi/middleware/rate_limit.go:125-139 | every list is pruned and empty ones are dropped |
| `RateLimiter.Limiter.WindowBound` | internal/httpapi/middleware/rate_limit.go:54-99 | no closed interval of the window's length holds more than the limit of one client's accepted requests |
| `RateLimiter.Limiter.StoredLatestIsLatestAccepted` | internal/httpapi/middleware/rate_limit.go:108-117 | a tracked client's list is never empty and ends in its latest accepted request |
| `Query.DateRangeIsInclusive` | internal/domain/disbursement.go:176-200 | fails exactly for days out of order; otherwise holds exactly the instants of the UTC days from the first to the last, both included |
| `Query.BuildWhere` | internal/repository/postgres/disbursement.go:147-177 | the placeholders are $1 to $k for the k arguments, each in one conjunct; on every row the clause means what the filter asks for, and it is refused exactly for an unknown status |
| `Query.AsksForInclusiveDays` | internal/repository/postgres/disbursement.go:167-177 | with a range made from two days a filter asks for the undeleted rows of those days, both included, that match status and search |
| `Query.AsksForStatus` | internal/repository/postgres/disbursement.go:154-158 | a filter by a status name asks for rows of that status and no other |
| `Query.LaterArgsAreIgnored` | internal/repository/postgres/disbursement.go:226 | arguments bound after the clause's own do not change its meaning |
| `Listing.ListsWindow` | internal/repository/postgres/disbursement.go:217-226 | with LIMIT and OFFSET bound last, the list statement is well bound and gives its window of the matching rows |
| `Listing.CountsMatches` | internal/repository/postgres/disbursement.go:179-188 | the count is the number of matching rows, in whatever order they are listed |
| `Listing.MatchingKeepsMatches` | internal/repository/postgres/disbursement.go:147-177 | the matching rows are those that match, each as often as the table has it |
| `Listing.List` | internal/repository/postgres/disbursement.go:147-240 | fails exactly for an unknown status; otherwise the page the defaults settle on of the whole answer, with the answer's length, in the order the sort text asks for |
| `Listing.AnswerIsOrdered` | internal/repository/postgres/disbursement.go:190-204 | the answer is ordered by amount, recipient name or status for those texts and by creation time for any other, ascending exactly for "asc" |
| `Listing.MapRows` | internal/repository/postgres/disbursement.go:235-238 | every row mapped, in order |
| `Listing.NewPagination` | internal/domain/disbursement.go:159-174 | refused exactly for negative or oversized values; otherwise the page and limit the store settles on, and the least number of pages that hold the total |
| `Listing.ListDisbursements` | internal/service/disbursement/service.go:183-195 | whenever it answers, the page and limit reported are those used, the items are that page, and they are in the order asked for; the exact failures |
| `Listing.PageSizes` | internal/domain/disbursement.go:159-174 | a page is full before the last one, not empty at it, and empty after it |
| `Listing.PagesAreTheAnswer` | internal/service/disbursement/service.go:183-195 | pages 1 to the reported last one, concatenated, are the whole answer |
| `Redaction.RedactAuditValue` | internal/domain/audit.go:75-96 | the loops that fill fresh maps and slices compute the recursive redaction |
| `Redaction.ClearPathsKeepShape` | internal/domain/audit.go:75-96 | along every path free of sensitive keys, leaves, key sets and array lengths are kept and nothing is added |
| `Redaction.SensitiveKeysReadAsMarker` | internal/domain/audit.go:78-84 | the first sensitive key of any path is present exactly when it was, reads as the marker, and hides everything below |
| `Redaction.RedactionIsIdempotent` | internal/domain/audit.go:75-96 | redacting twice is redacting once |
| `Redaction.RedactionRevealsExactlyTheClearPart` | internal/domain/audit.go:75-96 | two values have the same redaction if and only if they agree on every path free of sensitive keys |
| `Redaction.SensitiveKeysContainAWord` | internal/sensitivity/sensitivity.go:5-15 | the sensitive keys are those whose normal form contains one of the eight words |
| `Redaction.ContainsMeansSubstring` | internal/sensitivity/sensitivity.go:7-14 | containing a word means that it stands at some place of the text |
| `Audit.SnapshotHidesOnlySensitiveValues` | internal/domain/audit.go:54-73 | a snapshot shows the marker for every sensitive key that can be reached and all the rest of the record |
| `Domain.CheckAccountNumber` | internal/domain/disbursement.go:185-195 | accepts exactly 6 to 34 digits |
| `Domain.CanonicalBankCode` | internal/domain/disbursement.go:125-136 | the folded code exactly when it is 3 to 10 upper-case letters or digits |
| `Domain.Validate` | internal/domain/disbursement.go:93-116 | reports a field exactly when it breaks its rule, and nothing exactly for valid input |
| `Domain.ValidInputMeetsSchema` | migrations/000001_initial_schema.up.sql:45-56 | a validated input makes an open row that meets every check |
| `Domain.RowRoundTrip` | internal/repository/postgres/disbursement.go:324-349 | storing a record and mapping the row back gives the record |

## Left out

- HTTP handlers, routing, binding, response envelopes, health checks, JWT, bcrypt, SHA-256, JSON encoding and UUID parsing: library plumbing, passed in as functions or values.
- Configuration, migrations, database opening and wiring: input and output.
- Metrics, logging, tickers and `Reconcile`: they affect none of the results.
- ILIKE and trigram matching, SQL as text, text collation and ties in ORDER BY: the clause is a syntax tree, matching and collation are functions, and each order of the table is fixed; count and select see the same table.
- Exclusive outbox leases: the code does not promise them, since a stale failure record may move another worker's lease.
- The before-snapshot of a delete whose pre-read found nothing: the code writes the zero record there.
- Which JSON field names of a disbursement are sensitive: redaction is stated relative to `IsSensitiveKey`.
- Integer overflow in page offsets and the panics of the limiter's constructor.
- The empty client address, which the handler replaces by a fixed name before the limiter sees it.
- Refresh-session user lookup and token issuing: only the session rows are modelled.
- IdempotencyTheorems.RequestsAreValid: that the rendered body is well-formed JSON and the completion time is set is left to the encoder and the clock; identifiers are fresh and not zero by assumption.
- IdempotencyTheorems.RowsAreCreations: speaks of the Create protocol by itself; Service.CreationsAreServed says what becomes of the row and the event later.
- IdempotencyTheorems.RowsShowTheirRequests: speaks of rows as created, in the Create protocol by itself.
- RelayWorker.RelayService.StopWorker: the wait on the returned channel is a step of the interleaving machine, not of the method.
- The outbox class has one relay; several workers, overlapping leases and cleanup are in the relay machine.
