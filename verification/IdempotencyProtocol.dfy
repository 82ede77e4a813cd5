/**
 * `Create` as a protocol: internal/service/disbursement/service.go with the idempotency store and
 * the transactor under it. Any number of calls interleave; each action is one SQL statement, one
 * commit, or a failure. A transaction's writes stay staged until it commits, and a row lock is
 * held until its transaction ends.
 */
module IdempotencyProtocol {
  import opened Common
  import opened Idempotency
  import D = Domain
  import A = Audit

  const ENDPOINT := "/disbursements"

  /** Settings, and the library functions the protocol only passes values through. */
  datatype Config = Config(
    leaseTTL: Time, replayTTL: Time, fingerprint: D.CreateInput -> Hash,
    render: D.Disbursement -> Body, fold: string -> string, codec: A.Codec)

  predicate ValidConfig(cfg: Config) { 0 < cfg.leaseTTL < cfg.replayTTL }

  /** What one call has fixed by the time it reaches the store. */
  datatype Job = Job(
    input: D.CreateInput, req: ClaimRequest, disbursement: D.Disbursement, eventId: Id, requestId: Id)

  ghost predicate ValidJob(cfg: Config, job: Job) {
    && ValidScope(job.req.scope) && job.req.scope.endpoint == ENDPOINT
    && job.req.leaseUntil == job.req.now + cfg.leaseTTL
    && job.req.expiresAt == job.req.now + cfg.replayTTL
    && job.req.fingerprint == cfg.fingerprint(job.input)
    && D.ValidInput(cfg.fold, job.input)
    && job.disbursement == D.NewDisbursement(cfg.fold, job.input, job.disbursement.id, job.req.scope.user,
                                             job.disbursement.createdAt)
    && job.req.claimId != NIL && job.disbursement.id != NIL && job.eventId != NIL && job.requestId != NIL
  }

  function Fresh(job: Job): seq<Id> { [job.req.claimId, job.disbursement.id, job.eventId] }

  datatype Reason = KeyMissing | ClaimChanged | OwnershipLost | CompletionLost | Dependency | Crashed

  datatype Outcome = Answered(result: ClaimResult) | Succeeded | Failed(reason: Reason)

  datatype Phase =
    | Claiming                   // about to insert the claim
    | Conflicted                 // the insert met a row; about to lock it
    | Loaded(row: KeyRow)        // row locked and read, not yet classified
    | ReclaimStaged              // reclaiming update staged
    | Owner                      // the claim was granted
    | Verified                   // ownership checked under the lock
    | Inserted                   // disbursement staged
    | Audited                    // outbox event staged
    | Completing                 // completion staged; about to commit
    | Releasing(reason: Reason)  // the transaction failed; about to release
    | Finished(outcome: Outcome)

  /** The uncommitted writes of one transaction. */
  datatype Writes = Writes(key: Option<KeyRow>, rows: map<Id, D.Row>, events: map<Id, A.AuditEvent>)

  const NO_WRITES := Writes(None, map[], map[])

  type CallId = nat

  datatype Call = Call(job: Job, phase: Phase, staged: Writes)

  /** What a run has made visible so far; no step reads it. */
  datatype Entry =
    | Claimed(call: CallId, req: ClaimRequest, prior: Option<KeyRow>)  // a claim took the row
    | Created(call: CallId, job: Job)                                  // a disbursement committed
    | Repeated(req: ClaimRequest, replay: Replay)                      // REPLAYED was answered

  datatype State = State(
    keys: map<Scope, KeyRow>, disbursements: map<Id, D.Row>, outbox: map<Id, A.AuditEvent>,
    locks: map<Scope, CallId>, calls: map<CallId, Call>, issued: set<Id>, history: seq<Entry>)

  ghost predicate Init(s: State) {
    s == State(map[], map[], map[], map[], map[], {}, [])
  }

  datatype Action =
    | Begin(c: CallId, job: Job)
    | TryInsert(c: CallId)
    | LockRow(c: CallId)
    | Decide(c: CallId)
    | CommitReclaim(c: CallId, acknowledged: bool)
    | Verify(c: CallId)
    | InsertDisbursement(c: CallId)
    | InsertEvent(c: CallId)
    | Complete(c: CallId)
    | Commit(c: CallId, acknowledged: bool)
    | Abort(c: CallId)
    | Release(c: CallId)
    | Crash(c: CallId)

  function ScopeOf(call: Call): Scope { call.job.req.scope }

  function StoredKey(s: State, scope: Scope): Option<KeyRow> {
    if scope in s.keys then Some(s.keys[scope]) else None
  }

  /** No other transaction holds the row. */
  predicate Free(s: State, scope: Scope, c: CallId) {
    scope in s.locks ==> s.locks[scope] == c
  }

  predicate InTransaction(phase: Phase) {
    phase.Verified? || phase.Inserted? || phase.Audited? || phase.Completing?
  }

  ghost predicate Enabled(cfg: Config, s: State, a: Action) {
    if a.Begin? then
      && a.c !in s.calls && ValidJob(cfg, a.job)
      && (forall i :: 0 <= i < 3 ==> Fresh(a.job)[i] !in s.issued)
      && (forall i, j :: 0 <= i < j < 3 ==> Fresh(a.job)[i] != Fresh(a.job)[j])
    else
      && a.c in s.calls
      && var call := s.calls[a.c];
         var scope := ScopeOf(call);
         match a
         case TryInsert(_) => call.phase.Claiming?
         case LockRow(_) => call.phase.Conflicted? && Free(s, scope, a.c)
         case Decide(_) => call.phase.Loaded?
         case CommitReclaim(_, _) => call.phase.ReclaimStaged?
         case Verify(_) => call.phase.Owner? && Free(s, scope, a.c)
         case InsertDisbursement(_) => call.phase.Verified? && call.job.disbursement.id !in s.disbursements
         case InsertEvent(_) => call.phase.Inserted? && call.job.eventId !in s.outbox
         case Complete(_) => call.phase.Audited?
         case Commit(_, _) => call.phase.Completing?
         case Abort(_) => call.phase.Owner? || InTransaction(call.phase)
         case Release(_) =>
           && call.phase.Releasing?
           && (scope in s.keys && HeldBy(s.keys[scope], call.job.req.claimId) ==> Free(s, scope, a.c))
         case Crash(_) => !call.phase.Finished?
  }

  function Goto(s: State, c: CallId, phase: Phase): State
    requires c in s.calls
  {
    s.(calls := s.calls[c := s.calls[c].(phase := phase)])
  }

  /** Add to the uncommitted writes of `c`. */
  function Stage(s: State, c: CallId, phase: Phase, staged: Writes): State
    requires c in s.calls
  {
    s.(calls := s.calls[c := s.calls[c].(phase := phase, staged := staged)])
  }

  /** Lock the row for `c`, as `FOR UPDATE` does. */
  function Lock(s: State, c: CallId): State
    requires c in s.calls
  {
    s.(locks := s.locks[ScopeOf(s.calls[c]) := c])
  }

  /** End the transaction of `c` without its writes: drop them, drop its lock, move on. */
  function Rollback(s: State, c: CallId, phase: Phase): State
    requires c in s.calls
  {
    var scope := ScopeOf(s.calls[c]);
    s.(locks := if scope in s.locks && s.locks[scope] == c then s.locks - {scope} else s.locks,
       calls := s.calls[c := s.calls[c].(phase := phase, staged := NO_WRITES)])
  }

  /** Make the staged writes of `c` visible, all at once, and end its transaction. */
  function CommitWrites(s: State, c: CallId, phase: Phase): State
    requires c in s.calls
  {
    var call := s.calls[c];
    Rollback(s.(keys := if call.staged.key.Some? then s.keys[ScopeOf(call) := call.staged.key.value] else s.keys,
                disbursements := s.disbursements + call.staged.rows,
                outbox := s.outbox + call.staged.events),
             c, phase)
  }

  function Remember(s: State, entry: Entry): State { s.(history := s.history + [entry]) }

  function ResponseOf(cfg: Config, job: Job): Replay {
    Replay(201, cfg.render(job.disbursement), job.disbursement.id)
  }

  function CreatedEvent(cfg: Config, job: Job): Option<A.AuditEvent> {
    A.NewAuditEvent(cfg.codec, job.eventId, job.disbursement.id, A.Created, job.req.scope.user, job.requestId,
                    None, job.disbursement, job.disbursement.createdAt)
  }

  /** Insert-if-absent; it waits for no lock. */
  function AfterTryInsert(s: State, c: CallId): State
    requires c in s.calls
  {
    var req := s.calls[c].job.req;
    if req.scope in s.keys then Goto(s, c, Conflicted)
    else Remember(Goto(s.(keys := s.keys[req.scope := ClaimRow(req)]), c, Owner), Claimed(c, req, None))
  }

  function AfterLockRow(s: State, c: CallId): State
    requires c in s.calls
  {
    var scope := ScopeOf(s.calls[c]);
    if scope in s.keys then Goto(Lock(s, c), c, Loaded(s.keys[scope]))
    else Rollback(s, c, Finished(Failed(KeyMissing)))
  }

  /** Classify the loaded row; answer, or run the guarded reclaiming update. */
  function AfterDecide(s: State, c: CallId): State
    requires c in s.calls && s.calls[c].phase.Loaded?
  {
    var call := s.calls[c];
    var req := call.job.req;
    match Classify(call.phase.row, req)
    case Some(result) =>
      var done := Rollback(s, c, Finished(Answered(result)));
      if result.Replayed? then Remember(done, Repeated(req, result.replay)) else done
    case None =>
      if req.scope in s.keys && ReclaimGuard(s.keys[req.scope], req) then
        Stage(s, c, ReclaimStaged, call.staged.(key := Some(ClaimRow(req))))
      else Rollback(s, c, Finished(Failed(ClaimChanged)))
  }

  function AfterCommitReclaim(s: State, c: CallId, acknowledged: bool): State
    requires c in s.calls
  {
    var req := s.calls[c].job.req;
    Remember(CommitWrites(s, c, if acknowledged then Owner else Finished(Failed(Dependency))),
             Claimed(c, req, StoredKey(s, req.scope)))
  }

  function AfterVerify(s: State, c: CallId): State
    requires c in s.calls
  {
    var req := s.calls[c].job.req;
    if req.scope !in s.keys then Rollback(s, c, Releasing(KeyMissing))
    else if s.keys[req.scope].state != InProgress || s.keys[req.scope].claimId != req.claimId then
      Rollback(s, c, Releasing(OwnershipLost))
    else Goto(Lock(s, c), c, Verified)
  }

  function AfterInsertDisbursement(s: State, c: CallId): State
    requires c in s.calls
  {
    var call := s.calls[c];
    Stage(s, c, Inserted,
          call.staged.(rows := map[call.job.disbursement.id := D.ToRow(call.job.disbursement)]))
  }

  function AfterInsertEvent(cfg: Config, s: State, c: CallId): State
    requires c in s.calls
  {
    match CreatedEvent(cfg, s.calls[c].job)
    case None => Rollback(s, c, Releasing(Dependency))
    case Some(event) => Stage(s, c, Audited, s.calls[c].staged.(events := map[event.eventId := event]))
  }

  function AfterComplete(cfg: Config, s: State, c: CallId): State
    requires c in s.calls
  {
    var call := s.calls[c];
    var req := call.job.req;
    if req.scope in s.keys && HeldBy(s.keys[req.scope], req.claimId) then
      Stage(s, c, Completing,
            call.staged.(key := Some(CompleteRow(s.keys[req.scope], ResponseOf(cfg, call.job)))))
    else Rollback(s, c, Releasing(CompletionLost))
  }

  function AfterCommit(s: State, c: CallId, acknowledged: bool): State
    requires c in s.calls
  {
    Remember(CommitWrites(s, c, if acknowledged then Finished(Succeeded) else Releasing(Dependency)),
             Created(c, s.calls[c].job))
  }

  function AfterRelease(s: State, c: CallId): State
    requires c in s.calls && s.calls[c].phase.Releasing?
  {
    var req := s.calls[c].job.req;
    Rollback(if req.scope in s.keys && HeldBy(s.keys[req.scope], req.claimId)
             then s.(keys := s.keys - {req.scope}) else s,
             c, Finished(Failed(s.calls[c].phase.reason)))
  }

  ghost function Apply(cfg: Config, s: State, a: Action): State
    requires Enabled(cfg, s, a)
  {
    match a
    case Begin(c, job) =>
      s.(calls := s.calls[c := Call(job, Claiming, NO_WRITES)],
         issued := s.issued + {job.req.claimId, job.disbursement.id, job.eventId})
    case TryInsert(c) => AfterTryInsert(s, c)
    case LockRow(c) => AfterLockRow(s, c)
    case Decide(c) => AfterDecide(s, c)
    case CommitReclaim(c, acknowledged) => AfterCommitReclaim(s, c, acknowledged)
    case Verify(c) => AfterVerify(s, c)
    case InsertDisbursement(c) => AfterInsertDisbursement(s, c)
    case InsertEvent(c) => AfterInsertEvent(cfg, s, c)
    case Complete(c) => AfterComplete(cfg, s, c)
    case Commit(c, acknowledged) => AfterCommit(s, c, acknowledged)
    case Abort(c) => Rollback(s, c, Releasing(Dependency))
    case Release(c) => AfterRelease(s, c)
    case Crash(c) => Rollback(s, c, Finished(Failed(Crashed)))
  }

  /** A run: a start and any finite interleaving of enabled actions. */
  ghost predicate IsRun(cfg: Config, states: seq<State>, actions: seq<Action>) {
    && ValidConfig(cfg)
    && |states| == |actions| + 1
    && Init(states[0])
    && forall i :: 0 <= i < |actions| ==>
         Enabled(cfg, states[i], actions[i]) && states[i + 1] == Apply(cfg, states[i], actions[i])
  }
}
