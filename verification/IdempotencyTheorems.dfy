/** The promises of the idempotency protocol, for every run. */
module IdempotencyTheorems {
  import opened Common
  import opened Idempotency
  import opened IdempotencyProtocol
  import opened IdempotencyInvariant
  import opened IdempotencyHistory
  import D = Domain

  /** The history at position `n` of a run. */
  function HistoryAt(states: seq<State>, n: nat): seq<Entry>
    requires n < |states|
  {
    states[n].history
  }

  /**
   * Two disbursements are committed under one (user, endpoint, key) only if, between them, a claim
   * took over the first one's completed row at or after its expiry.
   */
  lemma SecondCreationNeedsExpiry(cfg: Config, states: seq<State>, actions: seq<Action>, n: nat, scope: Scope,
                                  i: nat, j: nat) returns (k: nat)
    requires IsRun(cfg, states, actions) && n < |states|
    requires CreatedAt(HistoryAt(states, n), i, scope) && CreatedAt(HistoryAt(states, n), j, scope) && i < j
    ensures i < k < j && Supersedes(cfg, HistoryAt(states, n), k, HistoryAt(states, n)[i].job)
  {
    RunIsRecorded(cfg, states, actions, n);
    k :| i < k < j && Supersedes(cfg, HistoryAt(states, n), k, HistoryAt(states, n)[i].job);
  }

  /** The row holds what its request asked for, pending, under the requesting user, with the fee of its tier. */
  predicate ShowsInput(cfg: Config, row: D.Row, job: Job) {
    && row.recipientName == job.input.recipientName && row.accountNumber == job.input.accountNumber
    && row.bankCode == cfg.fold(job.input.bankCode) && row.amount == job.input.amount
    && row.adminFee == (if job.input.amount < 5_000_000 then 2_500 else 5_000)
    && D.OrElse(row.note, "") == job.input.note && row.createdBy == job.req.scope.user && D.Open(row)
    && row.decidedBy.None? && row.decidedAt.None? && row.decisionNote.None? && row.updatedAt == row.createdAt
  }

  /** Rows, events and recorded creations correspond one to one. */
  lemma RowsAreCreations(cfg: Config, states: seq<State>, actions: seq<Action>, n: nat, id: Id) returns (i: nat)
    requires IsRun(cfg, states, actions) && n < |states|
    requires id in states[n].disbursements
    ensures CreatedRow(states[n].history, i, id)
    ensures forall j :: CreatedRow(states[n].history, j, id) ==> j == i
    ensures var job := states[n].history[i].job;
            && states[n].disbursements[id] == D.ToRow(job.disbursement)
            && CreatedEvent(cfg, job).Some?
            && job.eventId in states[n].outbox && states[n].outbox[job.eventId] == CreatedEvent(cfg, job).value
  {
    RunIsRecorded(cfg, states, actions, n);
    var h := states[n].history;
    i :| CreatedRow(h, i, id);
    forall j | CreatedRow(h, j, id) ensures j == i {
      assert h[i].call in states[n].calls && h[j].call in states[n].calls;
    }
  }

  lemma JobShowsInput(cfg: Config, job: Job)
    requires ValidJob(cfg, job)
    ensures ShowsInput(cfg, D.ToRow(job.disbursement), job)
  {
  }

  lemma CreatedJobIsValid(cfg: Config, s: State, i: nat)
    requires JobsValid(cfg, s) && Traced(s) && i < |s.history| && s.history[i].Created?
    ensures ValidJob(cfg, s.history[i].job)
  {
    assert s.history[i].call in s.calls;
  }

  /** A stored row is what the request that created it asked for. */
  lemma RowsShowTheirRequests(cfg: Config, states: seq<State>, actions: seq<Action>, n: nat, id: Id) returns (i: nat)
    requires IsRun(cfg, states, actions) && n < |states| && id in states[n].disbursements
    ensures CreatedRow(states[n].history, i, id)
    ensures ShowsInput(cfg, states[n].disbursements[id], states[n].history[i].job)
  {
    i := RowsAreCreations(cfg, states, actions, n, id);
    RunIsRecorded(cfg, states, actions, n);
    CreatedJobIsValid(cfg, states[n], i);
    JobShowsInput(cfg, states[n].history[i].job);
  }

  /** The store's checks of requests and completions never refuse what the service sends. */
  lemma RequestsAreValid(cfg: Config, states: seq<State>, actions: seq<Action>, n: nat, c: CallId)
    requires IsRun(cfg, states, actions) && n < |states| && c in states[n].calls
    ensures states[n].calls[c].job.req.scope.endpoint == "/disbursements"
    ensures ValidRequest(states[n].calls[c].job.req) && ValidReplay(ResponseOf(cfg, states[n].calls[c].job))
  {
    RunIsSafe(cfg, states, actions, n);
  }

  /** Every step of a run is safe at both ends and has one of the four effects. */
  lemma StepOfRun(cfg: Config, states: seq<State>, actions: seq<Action>, n: nat)
    requires IsRun(cfg, states, actions) && n < |actions|
    ensures Safe(cfg, states[n]) && Safe(cfg, states[n + 1])
    ensures Effect(cfg, states[n], states[n + 1], actions[n].c)
    ensures GoodStep(cfg, states[n], states[n + 1], actions[n].c)
  {
    RunIsSafe(cfg, states, actions, n);
    StepEffect(cfg, states[n], actions[n]);
    StepKeepsSafe(cfg, states[n], actions[n]);
  }

  lemma ForgottenRowWasOwn(cfg: Config, s: State, t: State, c: CallId, scope: Scope)
    requires Effect(cfg, s, t, c) && scope in s.keys && scope !in t.keys
    ensures s.keys[scope] == ClaimRow(t.calls[c].job.req)
  {
    assert StoredKey(s, scope).Some? && StoredKey(t, scope).None?;
    assert scope == ScopeOf(t.calls[c]);
  }

  /** A key disappears only when its own unfinished claim is released, so never once it is completed. */
  lemma OnlyOwnUnfinishedClaimsAreReleased(cfg: Config, states: seq<State>, actions: seq<Action>, n: nat, scope: Scope)
    requires IsRun(cfg, states, actions) && n < |actions|
    requires scope in states[n].keys && scope !in states[n + 1].keys
    ensures actions[n].Release?
    ensures actions[n].c in states[n + 1].calls
    ensures states[n].keys[scope] == ClaimRow(states[n + 1].calls[actions[n].c].job.req)
  {
    StepOfRun(cfg, states, actions, n);
    ForgottenRowWasOwn(cfg, states[n], states[n + 1], actions[n].c, scope);
    OnlyReleaseForgets(cfg, states[n], actions[n], scope);
  }

  lemma OnlyReleaseForgets(cfg: Config, s: State, a: Action, scope: Scope)
    requires Enabled(cfg, s, a) && scope in s.keys && scope !in Apply(cfg, s, a).keys
    ensures a.Release?
  {
    match a
    case TryInsert(c) =>
    case LockRow(c) => LockRowIsQuiet(s, c);
    case Decide(c) =>
    case CommitReclaim(c, _) =>
    case Commit(c, _) =>
    case Release(c) =>
    case _ => QuietActions(cfg, s, a);
  }

  lemma CompletedRowStays(cfg: Config, s: State, t: State, c: CallId, scope: Scope)
    requires Effect(cfg, s, t, c) && scope in s.keys && s.keys[scope].state == Completed
    ensures scope in t.keys
    ensures t.keys[scope] != s.keys[scope] ==>
              s.keys[scope].expiresAt <= t.calls[c].job.req.now && t.keys[scope] == ClaimRow(t.calls[c].job.req)
  {
    assert StoredKey(s, scope) == Some(s.keys[scope]);
    if StoredKey(t, scope) != StoredKey(s, scope) { assert scope == ScopeOf(t.calls[c]); }
  }

  /** A completed row stays as it is until a claim whose time has reached its expiry replaces it. */
  lemma CompletedRowsOutliveEverythingElse(cfg: Config, states: seq<State>, actions: seq<Action>, n: nat, scope: Scope)
    requires IsRun(cfg, states, actions) && n < |actions|
    requires scope in states[n].keys && states[n].keys[scope].state == Completed
    ensures scope in states[n + 1].keys && actions[n].c in states[n + 1].calls
    ensures var req := states[n + 1].calls[actions[n].c].job.req;
            states[n + 1].keys[scope] != states[n].keys[scope] ==>
              states[n].keys[scope].expiresAt <= req.now && states[n + 1].keys[scope] == ClaimRow(req)
  {
    StepOfRun(cfg, states, actions, n);
    CompletedRowStays(cfg, states[n], states[n + 1], actions[n].c, scope);
  }

  // --------------------------------------------------------------- fencing

  lemma TransactionOwnsRow(cfg: Config, s: State, c: CallId)
    requires PhasesOk(cfg, s) && c in s.calls && InTransaction(s.calls[c].phase)
    ensures Owns(s, s.calls[c].job)
  {
    assert PhaseOk(cfg, s, s.calls[c]);
  }

  lemma LockHolderKeepsRow(cfg: Config, s: State, t: State, c: CallId, d: CallId)
    requires Safe(cfg, s) && GoodStep(cfg, s, t, d) && d != c
    requires c in s.calls && InTransaction(s.calls[c].phase)
    ensures StoredKey(t, ScopeOf(s.calls[c])) == StoredKey(s, ScopeOf(s.calls[c]))
  {
    assert LockAt(s, ScopeOf(s.calls[c])) == Some(c);
    LockedRowStays(cfg, s, t, d, c);
  }

  /**
   * From a successful ownership check to the end of its transaction the row is the caller's own
   * unfinished claim, and no other call's step changes it.
   */
  lemma VerifiedRowIsHeld(cfg: Config, states: seq<State>, actions: seq<Action>, n: nat, c: CallId)
    requires IsRun(cfg, states, actions) && n < |actions|
    requires c in states[n].calls && InTransaction(states[n].calls[c].phase)
    ensures Owns(states[n], states[n].calls[c].job)
    ensures actions[n].c != c ==>
              StoredKey(states[n + 1], ScopeOf(states[n].calls[c])) == StoredKey(states[n], ScopeOf(states[n].calls[c]))
  {
    StepOfRun(cfg, states, actions, n);
    TransactionOwnsRow(cfg, states[n], c);
    if actions[n].c != c { LockHolderKeepsRow(cfg, states[n], states[n + 1], c, actions[n].c); }
  }

  /** So the completing update always finds its row. */
  lemma CompletionUpdatesExactlyOneRow(cfg: Config, states: seq<State>, actions: seq<Action>, n: nat)
    requires IsRun(cfg, states, actions) && n < |actions| && actions[n].Complete?
    ensures actions[n].c in states[n + 1].calls && states[n + 1].calls[actions[n].c].phase.Completing?
  {
    var c := actions[n].c;
    RunIsSafe(cfg, states, actions, n);
    assert PhaseOk(cfg, states[n], states[n].calls[c]);
    assert states[n + 1] == AfterComplete(cfg, states[n], c);
  }

  /** The claim was granted once, and the row no longer carries it as unfinished. */
  predicate Lost(s: State, c: CallId) {
    && c in s.calls
    && var call := s.calls[c];
       && (call.phase.Owner? || call.phase.Releasing? || call.phase.Finished?)
       && !(ScopeOf(call) in s.keys && HeldBy(s.keys[ScopeOf(call)], call.job.req.claimId))
  }

  lemma OthersCannotRestore(cfg: Config, s: State, t: State, d: CallId, c: CallId)
    requires IdsApart(t) && Effect(cfg, s, t, d) && d != c && Lost(s, c)
    ensures Lost(t, c)
  {
    assert t.calls[c].job.req.claimId != t.calls[d].job.req.claimId;
    assert ScopeOf(s.calls[c]) in t.keys ==> StoredKey(t, ScopeOf(s.calls[c])).Some?;
  }

  lemma LostCallIsHarmless(cfg: Config, s: State, a: Action)
    requires Enabled(cfg, s, a) && Lost(s, a.c)
    ensures Lost(Apply(cfg, s, a), a.c) && SameTables(s, Apply(cfg, s, a))
  {
    match a
    case Verify(c) => VerifyIsQuiet(s, c);
    case Abort(c) =>
    case Release(c) => assert AfterRelease(s, c) == Rollback(s, c, Finished(Failed(s.calls[c].phase.reason)));
    case Crash(c) =>
  }

  lemma OtherStepKeepsLost(cfg: Config, states: seq<State>, actions: seq<Action>, n: nat, c: CallId)
    requires IsRun(cfg, states, actions) && n < |actions| && Lost(states[n], c) && actions[n].c != c
    ensures Lost(states[n + 1], c)
  {
    StepOfRun(cfg, states, actions, n);
    OthersCannotRestore(cfg, states[n], states[n + 1], actions[n].c, c);
  }

  lemma {:induction false} RunKeepsLost(cfg: Config, states: seq<State>, actions: seq<Action>, n: nat, m: nat,
                                        c: CallId)
    requires IsRun(cfg, states, actions) && n <= m < |states| && Lost(states[n], c)
    ensures Lost(states[m], c)
    decreases m
  {
    if n < m {
      RunKeepsLost(cfg, states, actions, n, m - 1, c);
      if actions[m - 1].c == c {
        LostCallIsHarmless(cfg, states[m - 1], actions[m - 1]);
      } else {
        OtherStepKeepsLost(cfg, states, actions, m - 1, c);
      }
    }
  }

  /** A stale owner is fenced: whatever it still does, its release included, leaves every table unchanged. */
  lemma StaleOwnerChangesNothing(cfg: Config, states: seq<State>, actions: seq<Action>, n: nat, m: nat, c: CallId)
    requires IsRun(cfg, states, actions) && n <= m < |actions| && Lost(states[n], c) && actions[m].c == c
    ensures SameTables(states[m], states[m + 1])
  {
    RunKeepsLost(cfg, states, actions, n, m, c);
    LostCallIsHarmless(cfg, states[m], actions[m]);
  }

  // ------------------------------------------------------ atomic claiming

  predicate Acquiring(phase: Phase) {
    phase.Claiming? || phase.Conflicted? || phase.Loaded? || phase.ReclaimStaged?
  }

  /**
   * What a step of an unfinished `Acquire` may do: grant or answer exactly as the atomic claim
   * would on the row as it is at that moment; fail, having at most performed the atomic claim
   * unnoticed; or show nothing yet.
   */
  ghost predicate AtomicOrSilent(s: State, t: State, c: CallId)
    requires c in t.calls
  {
    var req := t.calls[c].job.req;
    var before, after := StoredKey(s, req.scope), StoredKey(t, req.scope);
    var (row, result) := AtomicClaim(before, req);
    match t.calls[c].phase
    case Owner => after == Some(row) && result == Acquired(req.claimId)
    case Finished(Answered(given)) => after == before == Some(row) && result == given
    case Finished(Failed(reason)) =>
      reason != ClaimChanged && (after == before || (after == Some(row) && result.Acquired?))
    case phase => Acquiring(phase) && after == before
  }

  lemma TryInsertIsAtomic(cfg: Config, s: State, c: CallId)
    requires c in s.calls && s.calls[c].phase.Claiming?
    ensures AtomicOrSilent(s, AfterTryInsert(s, c), c)
  {
  }

  lemma LockRowIsSilent(cfg: Config, s: State, c: CallId)
    requires c in s.calls && s.calls[c].phase.Conflicted?
    ensures AtomicOrSilent(s, AfterLockRow(s, c), c)
  {
  }

  lemma DecideIsAtomic(cfg: Config, s: State, c: CallId)
    requires OwnView(cfg, s, c) && s.calls[c].phase.Loaded?
    ensures c in AfterDecide(s, c).calls && AtomicOrSilent(s, AfterDecide(s, c), c)
  {
    ClassifierAgreesWithGuard(s.calls[c].phase.row, s.calls[c].job.req);
    assert StoredKey(s, ScopeOf(s.calls[c])) == Some(s.calls[c].phase.row);
  }

  lemma CommitReclaimIsAtomic(cfg: Config, s: State, c: CallId, acknowledged: bool)
    requires OwnView(cfg, s, c) && s.calls[c].phase.ReclaimStaged?
    ensures c in AfterCommitReclaim(s, c, acknowledged).calls
    ensures AtomicOrSilent(s, AfterCommitReclaim(s, c, acknowledged), c)
  {
    ClassifierAgreesWithGuard(s.keys[ScopeOf(s.calls[c])], s.calls[c].job.req);
  }

  lemma AcquireStepIsAtomic(cfg: Config, s: State, a: Action, t: State)
    requires Enabled(cfg, s, a) && t == Apply(cfg, s, a)
    requires a.c in s.calls && OwnView(cfg, s, a.c) && Acquiring(s.calls[a.c].phase)
    ensures a.c in t.calls && AtomicOrSilent(s, t, a.c)
  {
    match a
    case TryInsert(c) => TryInsertIsAtomic(cfg, s, c);
    case LockRow(c) => LockRowIsSilent(cfg, s, c);
    case Decide(c) => DecideIsAtomic(cfg, s, c);
    case CommitReclaim(c, acknowledged) => CommitReclaimIsAtomic(cfg, s, c, acknowledged);
    case Crash(c) =>
  }

  /** The two-step `Acquire` refines the atomic claim, and never finds its row changed before the reclaim. */
  lemma AcquireRefinesAtomicClaim(cfg: Config, states: seq<State>, actions: seq<Action>, n: nat)
    requires IsRun(cfg, states, actions) && n < |actions|
    requires actions[n].c in states[n].calls && Acquiring(states[n].calls[actions[n].c].phase)
    ensures actions[n].c in states[n + 1].calls && AtomicOrSilent(states[n], states[n + 1], actions[n].c)
  {
    RunIsSafe(cfg, states, actions, n);
    SafeGivesOwnView(cfg, states[n], actions[n].c);
    AcquireStepIsAtomic(cfg, states[n], actions[n], states[n + 1]);
  }

  // --------------------------------------------------------------- spacing

  ghost predicate TimesSet(cfg: Config, h: seq<Entry>) {
    && (forall i :: 0 <= i < |h| && h[i].Claimed? ==>
         h[i].req.now < h[i].req.leaseUntil && h[i].req.expiresAt == h[i].req.now + cfg.replayTTL
         && h[i].req.leaseUntil < h[i].req.expiresAt)
    && (forall i :: 0 <= i < |h| && h[i].Created? ==>
         h[i].job.req.expiresAt == h[i].job.req.now + cfg.replayTTL)
  }

  lemma HistoryTimes(cfg: Config, s: State)
    requires ValidConfig(cfg) && JobsValid(cfg, s) && Traced(s)
    ensures TimesSet(cfg, s.history)
  {
  }

  /** Claim `q` inserted into the empty slot of `scope` although it had read the clock before `deadline`. */
  predicate EarlyInsert(h: seq<Entry>, q: int, scope: Scope, deadline: Time) {
    ClaimedAt(h, q, scope) && h[q].prior.None? && h[q].req.now < deadline
  }

  /** Reclaims never go back in time, so an early claim goes back to an early insert. */
  lemma {:induction false} EarlyClaimStartsWithInsert(cfg: Config, h: seq<Entry>, scope: Scope, k: nat, m: nat,
                                                      deadline: Time)
      returns (q: nat)
    requires TimesSet(cfg, h) && ReclaimsChained(h)
    requires ClaimedAt(h, k, scope) && deadline <= h[k].req.now
    requires ClaimedAt(h, m, scope) && h[m].req.now < deadline && k < m
    ensures k < q <= m && EarlyInsert(h, q, scope, deadline)
    decreases m
  {
    if h[m].prior.None? {
      q := m;
    } else {
      var p :| LastClaim(h, p, scope, m) && SameClaim(h[m].prior.value, h[p].req);
      q := EarlyClaimStartsWithInsert(cfg, h, scope, k, p, deadline);
    }
  }

  lemma ClaimOfCreation(h: seq<Entry>, scope: Scope, j: nat) returns (m: int)
    requires CreationsClaimed(h) && CreatedAt(h, j, scope)
    ensures LastClaim(h, m, scope, j) && SameClaim(ClaimRow(h[j].job.req), h[m].req)
  {
    m :| LastClaim(h, m, scope, j) && SameClaim(ClaimRow(h[j].job.req), h[m].req);
  }

  /** The claim that led to a close creation is itself early, and comes after the take-over. */
  lemma ClaimIsEarly(cfg: Config, h: seq<Entry>, scope: Scope, i: nat, k: nat, j: nat, m: int)
    requires CreatedAt(h, i, scope) && CreatedAt(h, j, scope) && i < k < j && Supersedes(cfg, h, k, h[i].job)
    requires TimesSet(cfg, h) && LastClaim(h, m, scope, j) && SameClaim(ClaimRow(h[j].job.req), h[m].req)
    requires h[j].job.req.now < h[i].job.req.now + cfg.replayTTL
    ensures k < m && h[m].req.now < h[i].job.req.expiresAt <= h[k].req.now
  {
  }

  /**
   * Two creations under one key whose claims are closer than the replay window have between them, after the
   * claim `k` that took the first one's expired row over, an insert `q` under that key by a call that had
   * read the clock before the first one's window ended.
   */
  lemma CloseCreationsNeedEarlyInsert(cfg: Config, states: seq<State>, actions: seq<Action>, n: nat, scope: Scope,
                                      i: nat, j: nat) returns (k: nat, q: nat)
    requires IsRun(cfg, states, actions) && n < |states|
    requires CreatedAt(HistoryAt(states, n), i, scope) && CreatedAt(HistoryAt(states, n), j, scope) && i < j
    requires HistoryAt(states, n)[j].job.req.now < HistoryAt(states, n)[i].job.req.now + cfg.replayTTL
    ensures i < k < q < j && Supersedes(cfg, HistoryAt(states, n), k, HistoryAt(states, n)[i].job)
    ensures EarlyInsert(HistoryAt(states, n), q, scope, HistoryAt(states, n)[i].job.req.expiresAt)
  {
    k := SecondCreationNeedsExpiry(cfg, states, actions, n, scope, i, j);
    RunIsRecorded(cfg, states, actions, n);
    HistoryTimes(cfg, states[n]);
    var h := HistoryAt(states, n);
    var m := ClaimOfCreation(h, scope, j);
    ClaimIsEarly(cfg, h, scope, i, k, j, m);
    q := EarlyClaimStartsWithInsert(cfg, h, scope, k, m, h[i].job.req.expiresAt);
  }

  /** An insert into this key's empty slot sees a clock no earlier than any claim made there before it. */
  ghost predicate InsertsSeeLaterClock(h: seq<Entry>, scope: Scope) {
    forall p, q :: ClaimedAt(h, p, scope) && ClaimedAt(h, q, scope) && p < q && h[q].prior.None? ==>
      h[p].req.now <= h[q].req.now
  }

  /** So on a key whose inserts see a later clock, two creations are claimed the replay window apart. */
  lemma CreationsAreSpaced(cfg: Config, states: seq<State>, actions: seq<Action>, n: nat, scope: Scope, i: nat, j: nat)
    requires IsRun(cfg, states, actions) && n < |states| && InsertsSeeLaterClock(HistoryAt(states, n), scope)
    requires CreatedAt(HistoryAt(states, n), i, scope) && CreatedAt(HistoryAt(states, n), j, scope) && i < j
    ensures HistoryAt(states, n)[i].job.req.now + cfg.replayTTL <= HistoryAt(states, n)[j].job.req.now
  {
    if HistoryAt(states, n)[j].job.req.now < HistoryAt(states, n)[i].job.req.now + cfg.replayTTL {
      var k, q := CloseCreationsNeedEarlyInsert(cfg, states, actions, n, scope, i, j);
    }
  }

  // --------------------------------------------------------------- replays

  /**
   * A REPLAYED answer carries the identifier, status and creation-time body of a disbursement that
   * an equal request committed under the same key, inside that creation's window.
   */
  lemma ReplaysAreTrue(cfg: Config, states: seq<State>, actions: seq<Action>, n: nat, j: nat) returns (i: nat)
    requires IsRun(cfg, states, actions) && n < |states|
    requires j < |states[n].history| && states[n].history[j].Repeated?
    ensures i < j && Echoes(cfg, states[n].history, i, j)
    ensures var replay := states[n].history[j].replay;
            && replay.status == 201 && replay.disbursementId == states[n].history[i].job.disbursement.id
            && replay.disbursementId in states[n].disbursements
            && states[n].disbursements[replay.disbursementId].id == replay.disbursementId
            && replay.body == cfg.render(D.FromRow(states[n].disbursements[replay.disbursementId]))
  {
    RunIsRecorded(cfg, states, actions, n);
    i :| Echoes(cfg, states[n].history, i, j);
    D.RowRoundTrip(states[n].history[i].job.disbursement);
    assert Stored(cfg, states[n], states[n].history[i].job);
  }

  lemma EchoesAgree(cfg: Config, h: seq<Entry>, i: nat, j: nat, p: nat, q: nat)
    requires Separated(cfg, h)
    requires i < |h| && j < |h| && h[i].Repeated? && h[j].Repeated? && i < j
    requires h[i].req.scope == h[j].req.scope
    requires forall k :: i < k < j && ClaimedAt(h, k, h[i].req.scope) ==>
               h[k].prior.None? || h[k].prior.value.state == InProgress
    requires Echoes(cfg, h, p, i) && Echoes(cfg, h, q, j)
    ensures p == q
  {
    if p < q {
      var k :| p < k < q && Supersedes(cfg, h, k, h[p].job);
      assert false;
    }
  }

  /** Replays with no take-over of a completed row between them give the same answer. */
  lemma ReplaysInOneWindowAgree(cfg: Config, states: seq<State>, actions: seq<Action>, n: nat, i: nat, j: nat)
    requires IsRun(cfg, states, actions) && n < |states|
    requires i < j < |states[n].history| && states[n].history[i].Repeated? && states[n].history[j].Repeated?
    requires states[n].history[i].req.scope == states[n].history[j].req.scope
    requires forall k :: i < k < j && ClaimedAt(states[n].history, k, states[n].history[i].req.scope) ==>
               states[n].history[k].prior.None? || states[n].history[k].prior.value.state == InProgress
    ensures states[n].history[i].replay == states[n].history[j].replay
  {
    var p := ReplaysAreTrue(cfg, states, actions, n, i);
    var q := ReplaysAreTrue(cfg, states, actions, n, j);
    RunIsRecorded(cfg, states, actions, n);
    EchoesAgree(cfg, states[n].history, i, j, p, q);
  }

  lemma CompletedRowIsReadable(cfg: Config, s: State, scope: Scope)
    requires CompletedFromCreation(cfg, s) && scope in s.keys && s.keys[scope].state == Completed
    ensures StoredReplay(s.keys[scope]).Some?
    ensures 200 <= StoredReplay(s.keys[scope]).value.status <= 299
  {
    var i :| Source(cfg, s.history, i, scope, s.keys[scope], |s.history|);
  }

  /** The branch for an unreadable completed record is never taken. */
  lemma CompletedRecordsAreReadable(cfg: Config, states: seq<State>, actions: seq<Action>, n: nat, scope: Scope)
    requires IsRun(cfg, states, actions) && n < |states|
    requires scope in states[n].keys && states[n].keys[scope].state == Completed
    ensures StoredReplay(states[n].keys[scope]).Some?
    ensures 200 <= StoredReplay(states[n].keys[scope]).value.status <= 299
  {
    RunIsRecorded(cfg, states, actions, n);
    CompletedRowIsReadable(cfg, states[n], scope);
  }
}
