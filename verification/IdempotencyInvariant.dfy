/** What every step of the idempotency protocol keeps. */
module IdempotencyInvariant {
  import opened Common
  import opened Idempotency
  import opened IdempotencyProtocol
  import D = Domain
  import A = Audit

  // --------------------------------------------------------- the invariant

  predicate HoldsLock(phase: Phase) {
    phase.Loaded? || phase.ReclaimStaged? || InTransaction(phase)
  }

  /** Identifiers are never shared between calls. */
  ghost predicate IdsApart(s: State) {
    && (forall c :: c in s.calls ==>
         && s.calls[c].job.req.claimId in s.issued
         && s.calls[c].job.disbursement.id in s.issued
         && s.calls[c].job.eventId in s.issued)
    && (forall c, d :: c in s.calls && d in s.calls && c != d ==>
         && s.calls[c].job.req.claimId != s.calls[d].job.req.claimId
         && s.calls[c].job.disbursement.id != s.calls[d].job.disbursement.id
         && s.calls[c].job.eventId != s.calls[d].job.eventId)
  }

  ghost predicate JobsValid(cfg: Config, s: State) {
    forall c :: c in s.calls ==> ValidJob(cfg, s.calls[c].job)
  }

  /** A lock belongs to exactly the call whose transaction has locked that row. */
  ghost predicate LocksMatch(s: State) {
    && (forall scope :: scope in s.locks ==>
         && s.locks[scope] in s.calls
         && ScopeOf(s.calls[s.locks[scope]]) == scope
         && HoldsLock(s.calls[s.locks[scope]].phase))
    && (forall c :: c in s.calls && HoldsLock(s.calls[c].phase) ==>
         ScopeOf(s.calls[c]) in s.locks && s.locks[ScopeOf(s.calls[c])] == c)
  }

  function CompletedRow(cfg: Config, job: Job): KeyRow {
    CompleteRow(ClaimRow(job.req), ResponseOf(cfg, job))
  }

  predicate Owns(s: State, job: Job) {
    job.req.scope in s.keys && s.keys[job.req.scope] == ClaimRow(job.req)
  }

  function StagedRows(job: Job): map<Id, D.Row> {
    map[job.disbursement.id := D.ToRow(job.disbursement)]
  }

  ghost predicate StagedEvents(cfg: Config, job: Job, events: map<Id, A.AuditEvent>) {
    CreatedEvent(cfg, job).Some? && events == map[job.eventId := CreatedEvent(cfg, job).value]
  }

  /** What a call knows about the shared row, and what it has staged, at each point of its program. */
  ghost predicate PhaseOk(cfg: Config, s: State, call: Call) {
    match call.phase
    case Loaded(row) =>
      call.staged == NO_WRITES && ScopeOf(call) in s.keys && s.keys[ScopeOf(call)] == row
    case ReclaimStaged =>
      && ScopeOf(call) in s.keys && ReclaimGuard(s.keys[ScopeOf(call)], call.job.req)
      && call.staged == NO_WRITES.(key := Some(ClaimRow(call.job.req)))
    case Verified => Owns(s, call.job) && call.staged == NO_WRITES
    case Inserted => Owns(s, call.job) && call.staged == NO_WRITES.(rows := StagedRows(call.job))
    case Audited =>
      && Owns(s, call.job)
      && call.staged.key.None? && call.staged.rows == StagedRows(call.job)
      && StagedEvents(cfg, call.job, call.staged.events)
    case Completing =>
      && Owns(s, call.job)
      && call.staged.key == Some(CompletedRow(cfg, call.job)) && call.staged.rows == StagedRows(call.job)
      && StagedEvents(cfg, call.job, call.staged.events)
    case Releasing(reason) => call.staged == NO_WRITES && reason != CompletionLost && reason != ClaimChanged
    case Finished(outcome) => call.staged == NO_WRITES && outcome != Failed(ClaimChanged)
    case _ => call.staged == NO_WRITES
  }

  ghost predicate PhasesOk(cfg: Config, s: State) {
    forall c :: c in s.calls ==> PhaseOk(cfg, s, s.calls[c])
  }

  /** `row` is what some call of this scope wrote: its claim, or its completed claim. */
  ghost predicate WrittenBy(cfg: Config, s: State, scope: Scope, row: KeyRow, c: CallId) {
    && c in s.calls && ScopeOf(s.calls[c]) == scope
    && (row == ClaimRow(s.calls[c].job.req) || row == CompletedRow(cfg, s.calls[c].job))
  }

  ghost predicate KeysWritten(cfg: Config, s: State) {
    forall scope :: scope in s.keys ==> exists c :: WrittenBy(cfg, s, scope, s.keys[scope], c)
  }

  ghost predicate Safe(cfg: Config, s: State) {
    JobsValid(cfg, s) && IdsApart(s) && LocksMatch(s) && PhasesOk(cfg, s) && KeysWritten(cfg, s)
  }

  // -------------------------------------------------- what one step touches

  function LockAt(s: State, scope: Scope): Option<CallId> {
    if scope in s.locks then Some(s.locks[scope]) else None
  }

  /** A step concerns one call, and the row and lock of that call's own scope. */
  ghost predicate Local(s: State, t: State, c: CallId) {
    && c in t.calls
    && t.calls.Keys == s.calls.Keys + {c}
    && (forall d :: d in s.calls && d != c ==> t.calls[d] == s.calls[d])
    && (c in s.calls ==> t.calls[c].job == s.calls[c].job)
    && (forall scope :: scope != ScopeOf(t.calls[c]) ==>
         StoredKey(t, scope) == StoredKey(s, scope) && LockAt(t, scope) == LockAt(s, scope))
  }

  /** The part of the invariant that one call can see. */
  ghost predicate OwnView(cfg: Config, s: State, c: CallId) {
    && c in s.calls
    && var call := s.calls[c];
       var scope := ScopeOf(call);
       && PhaseOk(cfg, s, call)
       && (HoldsLock(call.phase) <==> LockAt(s, scope) == Some(c))
       && (scope in s.keys && HeldBy(s.keys[scope], call.job.req.claimId) ==> Owns(s, call.job))
  }

  /** How a step may treat its row: leave it, or, if nobody else has it locked, claim, complete or drop it. */
  ghost predicate RowStep(cfg: Config, s: State, t: State, c: CallId)
    requires c in t.calls
  {
    var job := t.calls[c].job;
    var scope := job.req.scope;
    || StoredKey(t, scope) == StoredKey(s, scope)
    || (&& (StoredKey(s, scope).None? || LockAt(s, scope).None? || LockAt(s, scope) == Some(c))
        && (|| StoredKey(t, scope).None?
            || StoredKey(t, scope) == Some(ClaimRow(job.req))
            || StoredKey(t, scope) == Some(CompletedRow(cfg, job))))
  }

  ghost predicate LockStep(s: State, t: State, c: CallId)
    requires c in t.calls
  {
    var scope := ScopeOf(t.calls[c]);
    && (HoldsLock(t.calls[c].phase) <==> LockAt(t, scope) == Some(c))
    && (|| LockAt(t, scope) == LockAt(s, scope)
        || (LockAt(s, scope) == Some(c) && LockAt(t, scope).None?)
        || (LockAt(s, scope).None? && LockAt(t, scope) == Some(c)))
  }

  /** One step done by the book. */
  ghost predicate GoodStep(cfg: Config, s: State, t: State, c: CallId) {
    Local(s, t, c) && PhaseOk(cfg, t, t.calls[c]) && LockStep(s, t, c) && RowStep(cfg, s, t, c)
  }

  lemma RollbackIsGood(cfg: Config, s: State, c: CallId, phase: Phase)
    requires OwnView(cfg, s, c)
    requires phase.Releasing? || phase.Finished?
    requires phase != Releasing(CompletionLost) && phase != Releasing(ClaimChanged)
    requires phase != Finished(Failed(ClaimChanged))
    ensures GoodStep(cfg, s, Rollback(s, c, phase), c)
  {
  }

  /** A step that only moves its call on, outside any lock. */
  lemma MoveIsGood(cfg: Config, s: State, c: CallId, phase: Phase)
    requires OwnView(cfg, s, c) && s.calls[c].staged == NO_WRITES && !HoldsLock(s.calls[c].phase)
    requires phase.Conflicted? || phase.Owner?
    ensures GoodStep(cfg, s, Goto(s, c, phase), c)
  {
  }

  lemma InsertIsGood(cfg: Config, s: State, c: CallId, t: State)
    requires OwnView(cfg, s, c) && s.calls[c].phase.Claiming? && ScopeOf(s.calls[c]) !in s.keys
    requires t.calls == Goto(s, c, Owner).calls && t.locks == s.locks
    requires t.keys == s.keys[ScopeOf(s.calls[c]) := ClaimRow(s.calls[c].job.req)]
    ensures GoodStep(cfg, s, t, c)
  {
  }

  lemma TryInsertIsGood(cfg: Config, s: State, c: CallId)
    requires OwnView(cfg, s, c) && s.calls[c].phase.Claiming?
    ensures GoodStep(cfg, s, AfterTryInsert(s, c), c)
  {
    if ScopeOf(s.calls[c]) in s.keys {
      MoveIsGood(cfg, s, c, Conflicted);
    } else {
      InsertIsGood(cfg, s, c, AfterTryInsert(s, c));
    }
  }

  lemma LockRowIsGood(cfg: Config, s: State, c: CallId)
    requires OwnView(cfg, s, c) && s.calls[c].phase.Conflicted? && Free(s, ScopeOf(s.calls[c]), c)
    ensures GoodStep(cfg, s, AfterLockRow(s, c), c)
  {
    if ScopeOf(s.calls[c]) in s.keys {
      assert AfterLockRow(s, c) == Goto(Lock(s, c), c, Loaded(s.keys[ScopeOf(s.calls[c])]));
    } else {
      RollbackIsGood(cfg, s, c, Finished(Failed(KeyMissing)));
    }
  }

  lemma DecideIsGood(cfg: Config, s: State, c: CallId)
    requires OwnView(cfg, s, c) && s.calls[c].phase.Loaded?
    ensures GoodStep(cfg, s, AfterDecide(s, c), c)
  {
    var call := s.calls[c];
    var result := Classify(call.phase.row, call.job.req);
    ClassifierAgreesWithGuard(call.phase.row, call.job.req);
    if result.Some? {
      RollbackIsGood(cfg, s, c, Finished(Answered(result.value)));
    } else {
      assert AfterDecide(s, c) == Stage(s, c, ReclaimStaged, call.staged.(key := Some(ClaimRow(call.job.req))));
    }
  }

  lemma CommitReclaimIsGood(cfg: Config, s: State, c: CallId, acknowledged: bool)
    requires OwnView(cfg, s, c) && s.calls[c].phase.ReclaimStaged?
    ensures GoodStep(cfg, s, AfterCommitReclaim(s, c, acknowledged), c)
  {
  }

  lemma VerifyIsGood(cfg: Config, s: State, c: CallId)
    requires OwnView(cfg, s, c) && s.calls[c].phase.Owner? && Free(s, ScopeOf(s.calls[c]), c)
    ensures GoodStep(cfg, s, AfterVerify(s, c), c)
  {
    var req := s.calls[c].job.req;
    if req.scope !in s.keys {
      RollbackIsGood(cfg, s, c, Releasing(KeyMissing));
    } else if !HeldBy(s.keys[req.scope], req.claimId) {
      RollbackIsGood(cfg, s, c, Releasing(OwnershipLost));
    } else {
      assert AfterVerify(s, c) == Goto(Lock(s, c), c, Verified);
    }
  }

  lemma InsertDisbursementIsGood(cfg: Config, s: State, c: CallId)
    requires OwnView(cfg, s, c) && s.calls[c].phase.Verified?
    ensures GoodStep(cfg, s, AfterInsertDisbursement(s, c), c)
  {
  }

  lemma InsertEventIsGood(cfg: Config, s: State, c: CallId)
    requires OwnView(cfg, s, c) && s.calls[c].phase.Inserted?
    ensures GoodStep(cfg, s, AfterInsertEvent(cfg, s, c), c)
  {
    if CreatedEvent(cfg, s.calls[c].job).None? { RollbackIsGood(cfg, s, c, Releasing(Dependency)); }
  }

  lemma CompleteIsGood(cfg: Config, s: State, c: CallId)
    requires OwnView(cfg, s, c) && s.calls[c].phase.Audited?
    ensures GoodStep(cfg, s, AfterComplete(cfg, s, c), c)
  {
  }

  lemma CommitIsGood(cfg: Config, s: State, c: CallId, acknowledged: bool)
    requires OwnView(cfg, s, c) && s.calls[c].phase.Completing?
    ensures GoodStep(cfg, s, AfterCommit(s, c, acknowledged), c)
  {
  }

  lemma ReleaseIsGood(cfg: Config, s: State, c: CallId)
    requires OwnView(cfg, s, c) && s.calls[c].phase.Releasing?
    requires ScopeOf(s.calls[c]) in s.keys && HeldBy(s.keys[ScopeOf(s.calls[c])], s.calls[c].job.req.claimId)
             ==> Free(s, ScopeOf(s.calls[c]), c)
    ensures GoodStep(cfg, s, AfterRelease(s, c), c)
  {
  }

  lemma StepIsGood(cfg: Config, s: State, a: Action)
    requires Enabled(cfg, s, a)
    requires if a.Begin? then LockAt(s, a.job.req.scope) != Some(a.c) else OwnView(cfg, s, a.c)
    ensures GoodStep(cfg, s, Apply(cfg, s, a), a.c)
  {
    match a
    case Begin(_, _) =>
    case TryInsert(c) => TryInsertIsGood(cfg, s, c);
    case LockRow(c) => LockRowIsGood(cfg, s, c);
    case Decide(c) => DecideIsGood(cfg, s, c);
    case CommitReclaim(c, acknowledged) => CommitReclaimIsGood(cfg, s, c, acknowledged);
    case Verify(c) => VerifyIsGood(cfg, s, c);
    case InsertDisbursement(c) => InsertDisbursementIsGood(cfg, s, c);
    case InsertEvent(c) => InsertEventIsGood(cfg, s, c);
    case Complete(c) => CompleteIsGood(cfg, s, c);
    case Commit(c, acknowledged) => CommitIsGood(cfg, s, c, acknowledged);
    case Abort(c) => RollbackIsGood(cfg, s, c, Releasing(Dependency));
    case Release(c) => ReleaseIsGood(cfg, s, c);
    case Crash(c) => RollbackIsGood(cfg, s, c, Finished(Failed(Crashed)));
  }

  // ------------------------------------------------------- it is inductive

  /** A row whose claim is this call's, and unfinished, is exactly the row this call wrote. */
  lemma HeldMeansOwned(cfg: Config, s: State, c: CallId)
    requires IdsApart(s) && KeysWritten(cfg, s) && c in s.calls
    requires ScopeOf(s.calls[c]) in s.keys
    requires HeldBy(s.keys[ScopeOf(s.calls[c])], s.calls[c].job.req.claimId)
    ensures Owns(s, s.calls[c].job)
  {
    var scope := ScopeOf(s.calls[c]);
    var d :| WrittenBy(cfg, s, scope, s.keys[scope], d);
    assert d == c;
  }

  lemma SafeGivesOwnView(cfg: Config, s: State, c: CallId)
    requires Safe(cfg, s) && c in s.calls
    ensures OwnView(cfg, s, c)
  {
    var scope := ScopeOf(s.calls[c]);
    if scope in s.keys && HeldBy(s.keys[scope], s.calls[c].job.req.claimId) { HeldMeansOwned(cfg, s, c); }
  }

  lemma GoodStepKeepsLocks(cfg: Config, s: State, t: State, c: CallId)
    requires LocksMatch(s) && GoodStep(cfg, s, t, c)
    ensures LocksMatch(t)
  {
    var own := ScopeOf(t.calls[c]);
    forall scope | scope in t.locks
      ensures t.locks[scope] in t.calls && ScopeOf(t.calls[t.locks[scope]]) == scope
              && HoldsLock(t.calls[t.locks[scope]].phase)
    {
      assert LockAt(t, scope) == Some(t.locks[scope]);
      assert scope != own ==> LockAt(s, scope) == LockAt(t, scope);
    }
    forall d | d in t.calls && HoldsLock(t.calls[d].phase)
      ensures ScopeOf(t.calls[d]) in t.locks && t.locks[ScopeOf(t.calls[d])] == d
    {
      if d != c {
        assert LockAt(s, ScopeOf(s.calls[d])) == Some(d);
        assert LockAt(t, ScopeOf(t.calls[d])) == Some(d);
      } else {
        assert LockAt(t, own) == Some(c);
      }
    }
  }

  /** While one call holds a row's lock, no step of another call changes that row. */
  lemma LockedRowStays(cfg: Config, s: State, t: State, c: CallId, d: CallId)
    requires Local(s, t, c) && RowStep(cfg, s, t, c)
    requires d in s.calls && d != c && HoldsLock(s.calls[d].phase) && PhaseOk(cfg, s, s.calls[d])
    requires LockAt(s, ScopeOf(s.calls[d])) == Some(d)
    ensures StoredKey(t, ScopeOf(s.calls[d])) == StoredKey(s, ScopeOf(s.calls[d]))
  {
  }

  lemma GoodStepKeepsPhases(cfg: Config, s: State, t: State, c: CallId)
    requires Safe(cfg, s) && GoodStep(cfg, s, t, c)
    ensures PhasesOk(cfg, t)
  {
    forall d | d in t.calls ensures PhaseOk(cfg, t, t.calls[d]) {
      if d != c {
        assert t.calls[d] == s.calls[d] && PhaseOk(cfg, s, s.calls[d]);
        if HoldsLock(s.calls[d].phase) {
          LockedRowStays(cfg, s, t, c, d);
          assert StoredKey(t, ScopeOf(s.calls[d])) == StoredKey(s, ScopeOf(s.calls[d]));
        }
      }
    }
  }

  lemma GoodStepKeepsKeysWritten(cfg: Config, s: State, t: State, c: CallId)
    requires KeysWritten(cfg, s) && GoodStep(cfg, s, t, c)
    ensures KeysWritten(cfg, t)
  {
    forall scope | scope in t.keys ensures exists d :: WrittenBy(cfg, t, scope, t.keys[scope], d) {
      assert StoredKey(t, scope) == Some(t.keys[scope]);
      if StoredKey(s, scope) == StoredKey(t, scope) {
        var d :| WrittenBy(cfg, s, scope, s.keys[scope], d);
        assert WrittenBy(cfg, t, scope, t.keys[scope], d);
      } else {
        assert WrittenBy(cfg, t, scope, t.keys[scope], c);
      }
    }
  }

  lemma BeginKeepsIds(cfg: Config, s: State, a: Action)
    requires JobsValid(cfg, s) && IdsApart(s) && Enabled(cfg, s, a) && a.Begin?
    ensures JobsValid(cfg, Apply(cfg, s, a)) && IdsApart(Apply(cfg, s, a))
  {
    assert Fresh(a.job)[0] == a.job.req.claimId;
    assert Fresh(a.job)[1] == a.job.disbursement.id;
    assert Fresh(a.job)[2] == a.job.eventId;
  }

  lemma GoodStepKeepsIds(cfg: Config, s: State, t: State, c: CallId)
    requires JobsValid(cfg, s) && IdsApart(s) && Local(s, t, c) && c in s.calls && t.issued == s.issued
    ensures JobsValid(cfg, t) && IdsApart(t)
  {
    assert forall d :: d in t.calls ==> d in s.calls && t.calls[d].job == s.calls[d].job;
  }

  lemma StepIssuesNothing(cfg: Config, s: State, a: Action)
    requires Enabled(cfg, s, a) && !a.Begin?
    ensures Apply(cfg, s, a).issued == s.issued
  {
  }

  lemma StepKeepsSafe(cfg: Config, s: State, a: Action)
    requires Safe(cfg, s) && Enabled(cfg, s, a)
    ensures Safe(cfg, Apply(cfg, s, a))
    ensures GoodStep(cfg, s, Apply(cfg, s, a), a.c)
  {
    var t := Apply(cfg, s, a);
    if a.Begin? {
      StepIsGood(cfg, s, a);
      BeginKeepsIds(cfg, s, a);
    } else {
      SafeGivesOwnView(cfg, s, a.c);
      StepIsGood(cfg, s, a);
      StepIssuesNothing(cfg, s, a);
      GoodStepKeepsIds(cfg, s, t, a.c);
    }
    GoodStepKeepsLocks(cfg, s, t, a.c);
    GoodStepKeepsPhases(cfg, s, t, a.c);
    GoodStepKeepsKeysWritten(cfg, s, t, a.c);
  }

  lemma {:induction false} RunIsSafe(cfg: Config, states: seq<State>, actions: seq<Action>, n: nat)
    requires IsRun(cfg, states, actions) && n < |states|
    ensures Safe(cfg, states[n])
  {
    if n > 0 {
      RunIsSafe(cfg, states, actions, n - 1);
      StepKeepsSafe(cfg, states[n - 1], actions[n - 1]);
    }
  }
}
