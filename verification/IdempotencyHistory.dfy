/** What the history of a run records about its rows, and why each step keeps it so. */
module IdempotencyHistory {
  import opened Common
  import opened Idempotency
  import opened IdempotencyProtocol
  import opened IdempotencyInvariant
  import D = Domain

  // ------------------------------------------------ the four kinds of step

  /** Nothing becomes visible, except that a failed owner may drop its own unfinished claim. */
  ghost predicate Quiet(s: State, t: State, c: CallId)
    requires c in t.calls
  {
    var scope := ScopeOf(t.calls[c]);
    && t.history == s.history && t.disbursements == s.disbursements && t.outbox == s.outbox
    && (|| StoredKey(t, scope) == StoredKey(s, scope)
        || (StoredKey(t, scope).None? && StoredKey(s, scope) == Some(ClaimRow(t.calls[c].job.req))))
  }

  ghost predicate Claims(s: State, t: State, c: CallId)
    requires c in t.calls
  {
    var req := t.calls[c].job.req;
    var prior := StoredKey(s, req.scope);
    && t.history == s.history + [Claimed(c, req, prior)]
    && t.disbursements == s.disbursements && t.outbox == s.outbox
    && StoredKey(t, req.scope) == Some(ClaimRow(req))
    && (prior.Some? ==> ReclaimGuard(prior.value, req))
  }

  ghost predicate Creates(cfg: Config, s: State, t: State, c: CallId)
    requires c in t.calls
  {
    var job := t.calls[c].job;
    && t.history == s.history + [Created(c, job)]
    && CreatedEvent(cfg, job).Some?
    && t.disbursements == s.disbursements[job.disbursement.id := D.ToRow(job.disbursement)]
    && t.outbox == s.outbox[job.eventId := CreatedEvent(cfg, job).value]
    && StoredKey(s, job.req.scope) == Some(ClaimRow(job.req))
    && StoredKey(t, job.req.scope) == Some(CompletedRow(cfg, job))
    && c in s.calls && s.calls[c].phase.Completing?
  }

  ghost predicate Repeats(s: State, t: State, c: CallId)
    requires c in t.calls
  {
    var req := t.calls[c].job.req;
    && t.disbursements == s.disbursements && t.outbox == s.outbox
    && StoredKey(t, req.scope) == StoredKey(s, req.scope)
    && StoredKey(s, req.scope).Some?
    && var row := StoredKey(s, req.scope).value;
       && row.state == Completed && row.expiresAt > req.now && row.requestHash == req.fingerprint
       && StoredReplay(row).Some?
       && t.history == s.history + [Repeated(req, StoredReplay(row).value)]
  }

  ghost predicate Effect(cfg: Config, s: State, t: State, c: CallId) {
    && Local(s, t, c)
    && (Quiet(s, t, c) || Claims(s, t, c) || Creates(cfg, s, t, c) || Repeats(s, t, c))
  }

  /** The statements inside a transaction show nothing to anyone else. */
  predicate SameTables(s: State, t: State) {
    t.keys == s.keys && t.disbursements == s.disbursements && t.outbox == s.outbox && t.history == s.history
  }

  lemma LockRowIsQuiet(s: State, c: CallId)
    requires c in s.calls
    ensures SameTables(s, AfterLockRow(s, c))
  {
  }

  lemma VerifyIsQuiet(s: State, c: CallId)
    requires c in s.calls
    ensures SameTables(s, AfterVerify(s, c))
  {
  }

  lemma InsertsAreQuiet(cfg: Config, s: State, c: CallId)
    requires c in s.calls
    ensures SameTables(s, AfterInsertDisbursement(s, c)) && SameTables(s, AfterInsertEvent(cfg, s, c))
  {
  }

  lemma CompleteIsQuiet(cfg: Config, s: State, c: CallId)
    requires c in s.calls
    ensures SameTables(s, AfterComplete(cfg, s, c))
  {
  }

  lemma TryInsertEffect(cfg: Config, s: State, c: CallId)
    requires OwnView(cfg, s, c) && s.calls[c].phase.Claiming?
    ensures c in AfterTryInsert(s, c).calls
    ensures Quiet(s, AfterTryInsert(s, c), c) || Claims(s, AfterTryInsert(s, c), c)
  {
    if ScopeOf(s.calls[c]) in s.keys {
      assert AfterTryInsert(s, c) == Goto(s, c, Conflicted);
      assert Quiet(s, AfterTryInsert(s, c), c);
    } else {
      assert Claims(s, AfterTryInsert(s, c), c);
    }
  }

  lemma DecideEffect(cfg: Config, s: State, c: CallId)
    requires OwnView(cfg, s, c) && s.calls[c].phase.Loaded?
    ensures c in AfterDecide(s, c).calls
    ensures Quiet(s, AfterDecide(s, c), c) || Repeats(s, AfterDecide(s, c), c)
  {
    var call := s.calls[c];
    ClassifierAgreesWithGuard(call.phase.row, call.job.req);
    assert StoredKey(s, ScopeOf(call)) == Some(call.phase.row);
  }

  lemma CommitReclaimEffect(cfg: Config, s: State, c: CallId, acknowledged: bool)
    requires OwnView(cfg, s, c) && s.calls[c].phase.ReclaimStaged?
    ensures c in AfterCommitReclaim(s, c, acknowledged).calls
    ensures Claims(s, AfterCommitReclaim(s, c, acknowledged), c)
  {
    var t := AfterCommitReclaim(s, c, acknowledged);
    assert s.disbursements + map[] == s.disbursements;
    assert s.outbox + map[] == s.outbox;
  }

  lemma CommitEffect(cfg: Config, s: State, c: CallId, acknowledged: bool)
    requires OwnView(cfg, s, c) && s.calls[c].phase.Completing?
    ensures c in AfterCommit(s, c, acknowledged).calls
    ensures Creates(cfg, s, AfterCommit(s, c, acknowledged), c)
  {
    var job := s.calls[c].job;
    assert s.disbursements + StagedRows(job) == s.disbursements[job.disbursement.id := D.ToRow(job.disbursement)];
    assert s.outbox + s.calls[c].staged.events == s.outbox[job.eventId := CreatedEvent(cfg, job).value];
  }

  lemma ReleaseEffect(cfg: Config, s: State, c: CallId)
    requires OwnView(cfg, s, c) && s.calls[c].phase.Releasing?
    ensures c in AfterRelease(s, c).calls
    ensures Quiet(s, AfterRelease(s, c), c)
  {
  }

  /** The statements inside a transaction, a new call and a rollback change no table. */
  lemma QuietActions(cfg: Config, s: State, a: Action)
    requires Enabled(cfg, s, a)
    requires a.Begin? || a.LockRow? || a.Verify? || a.InsertDisbursement? || a.InsertEvent? || a.Complete?
             || a.Abort? || a.Crash?
    ensures SameTables(s, Apply(cfg, s, a))
  {
    match a
    case Begin(_, _) =>
    case LockRow(c) => LockRowIsQuiet(s, c);
    case Verify(c) => VerifyIsQuiet(s, c);
    case InsertDisbursement(c) => InsertsAreQuiet(cfg, s, c);
    case InsertEvent(c) => InsertsAreQuiet(cfg, s, c);
    case Complete(c) => CompleteIsQuiet(cfg, s, c);
    case Abort(_) =>
    case Crash(_) =>
  }

  lemma TableActions(cfg: Config, s: State, a: Action)
    requires Enabled(cfg, s, a) && OwnView(cfg, s, a.c)
    requires a.TryInsert? || a.Decide? || a.CommitReclaim? || a.Commit? || a.Release?
    ensures a.c in Apply(cfg, s, a).calls
    ensures var t := Apply(cfg, s, a);
            Quiet(s, t, a.c) || Claims(s, t, a.c) || Creates(cfg, s, t, a.c) || Repeats(s, t, a.c)
  {
    match a
    case TryInsert(c) => TryInsertEffect(cfg, s, c);
    case Decide(c) => DecideEffect(cfg, s, c);
    case CommitReclaim(c, acknowledged) => CommitReclaimEffect(cfg, s, c, acknowledged);
    case Commit(c, acknowledged) => CommitEffect(cfg, s, c, acknowledged);
    case Release(c) => ReleaseEffect(cfg, s, c);
  }

  lemma VisibleEffect(cfg: Config, s: State, a: Action, t: State)
    requires Enabled(cfg, s, a) && (!a.Begin? ==> OwnView(cfg, s, a.c))
    requires t == Apply(cfg, s, a) && a.c in t.calls
    ensures Quiet(s, t, a.c) || Claims(s, t, a.c) || Creates(cfg, s, t, a.c) || Repeats(s, t, a.c)
  {
    if a.TryInsert? || a.Decide? || a.CommitReclaim? || a.Commit? || a.Release? {
      TableActions(cfg, s, a);
    } else {
      QuietActions(cfg, s, a);
      assert Quiet(s, t, a.c);
    }
  }

  lemma StepEffect(cfg: Config, s: State, a: Action)
    requires Safe(cfg, s) && Enabled(cfg, s, a)
    ensures Safe(cfg, Apply(cfg, s, a)) && Effect(cfg, s, Apply(cfg, s, a), a.c)
  {
    StepKeepsSafe(cfg, s, a);
    if !a.Begin? { SafeGivesOwnView(cfg, s, a.c); }
    VisibleEffect(cfg, s, a, Apply(cfg, s, a));
  }

  // -------------------------------------------------- reading the history

  predicate ClaimedAt(h: seq<Entry>, i: int, scope: Scope) {
    0 <= i < |h| && h[i].Claimed? && h[i].req.scope == scope
  }

  predicate CreatedAt(h: seq<Entry>, i: int, scope: Scope) {
    0 <= i < |h| && h[i].Created? && h[i].job.req.scope == scope
  }

  /** Entry `k` reclaimed the very row that `job` completed, at or after its expiry. */
  predicate Supersedes(cfg: Config, h: seq<Entry>, k: int, job: Job) {
    && ClaimedAt(h, k, job.req.scope)
    && h[k].prior == Some(CompletedRow(cfg, job))
    && job.req.expiresAt <= h[k].req.now
  }

  /** Entry `m` is the latest claim on `scope` before position `n`. */
  ghost predicate LastClaim(h: seq<Entry>, m: int, scope: Scope, n: int) {
    && ClaimedAt(h, m, scope) && m < n
    && forall k :: m < k < n ==> !ClaimedAt(h, k, scope)
  }

  predicate SameClaim(row: KeyRow, req: ClaimRequest) {
    && row.claimId == req.claimId && row.requestHash == req.fingerprint
    && row.leaseUntil == req.leaseUntil && row.expiresAt == req.expiresAt
  }

  // -------------------------------------------------------- the invariants

  /** Entries name real calls, and a call that has created is past its commit. */
  ghost predicate Traced(s: State) {
    forall i :: 0 <= i < |s.history| ==>
      var e := s.history[i];
      && (e.Claimed? ==> e.call in s.calls && s.calls[e.call].job.req == e.req)
      && (e.Created? ==> e.call in s.calls && s.calls[e.call].job == e.job
                         && (s.calls[e.call].phase.Releasing? || s.calls[e.call].phase.Finished?))
  }

  ghost predicate Once(s: State) {
    forall i, j :: 0 <= i < j < |s.history| && s.history[i].Created? && s.history[j].Created? ==>
      s.history[i].call != s.history[j].call
  }

  /** A creation's completed row stays put until a claim supersedes it. */
  ghost predicate Settled(cfg: Config, s: State) {
    forall i :: 0 <= i < |s.history| && s.history[i].Created? ==>
      var job := s.history[i].job;
      || StoredKey(s, job.req.scope) == Some(CompletedRow(cfg, job))
      || exists k :: i < k && Supersedes(cfg, s.history, k, job)
  }

  /** Between two creations in one scope the first one's row was superseded. */
  ghost predicate Separated(cfg: Config, h: seq<Entry>) {
    forall i, j, scope :: CreatedAt(h, i, scope) && CreatedAt(h, j, scope) && i < j ==>
      exists k :: i < k < j && Supersedes(cfg, h, k, h[i].job)
  }

  ghost predicate RowsClaimed(s: State) {
    forall scope :: scope in s.keys ==>
      exists m :: LastClaim(s.history, m, scope, |s.history|) && SameClaim(s.keys[scope], s.history[m].req)
  }

  ghost predicate CreationsClaimed(h: seq<Entry>) {
    forall j, scope :: CreatedAt(h, j, scope) ==>
      exists m :: LastClaim(h, m, scope, j) && SameClaim(ClaimRow(h[j].job.req), h[m].req)
  }

  /** A reclaim takes over from the latest claim, and only when the guard let it. */
  ghost predicate ReclaimsChained(h: seq<Entry>) {
    forall q, scope :: ClaimedAt(h, q, scope) && h[q].prior.Some? ==>
      && ReclaimGuard(h[q].prior.value, h[q].req)
      && exists p :: LastClaim(h, p, scope, q) && SameClaim(h[q].prior.value, h[p].req)
  }

  /** Creation `i` wrote this row, and nothing before position `n` superseded it. */
  ghost predicate Source(cfg: Config, h: seq<Entry>, i: int, scope: Scope, row: KeyRow, n: int) {
    && CreatedAt(h, i, scope) && i < n
    && row == CompletedRow(cfg, h[i].job)
    && forall k :: i < k < n ==> !Supersedes(cfg, h, k, h[i].job)
  }

  ghost predicate CompletedFromCreation(cfg: Config, s: State) {
    forall scope :: scope in s.keys && s.keys[scope].state == Completed ==>
      exists i :: Source(cfg, s.history, i, scope, s.keys[scope], |s.history|)
  }

  /** The creation that a repeated answer repeats. */
  ghost predicate Echoes(cfg: Config, h: seq<Entry>, i: int, j: int)
    requires 0 <= j < |h| && h[j].Repeated?
  {
    && 0 <= i < j && h[i].Created?
    && Source(cfg, h, i, h[j].req.scope, CompletedRow(cfg, h[i].job), j)
    && h[i].job.req.fingerprint == h[j].req.fingerprint
    && h[j].req.now < h[i].job.req.expiresAt
    && h[j].replay == ResponseOf(cfg, h[i].job)
  }

  ghost predicate RepeatsTrue(cfg: Config, h: seq<Entry>) {
    forall j :: 0 <= j < |h| && h[j].Repeated? ==> exists i :: Echoes(cfg, h, i, j)
  }

  /** Every creation left its row and its event. */
  ghost predicate Stored(cfg: Config, s: State, job: Job) {
    && CreatedEvent(cfg, job).Some?
    && job.disbursement.id in s.disbursements
    && s.disbursements[job.disbursement.id] == D.ToRow(job.disbursement)
    && job.eventId in s.outbox && s.outbox[job.eventId] == CreatedEvent(cfg, job).value
  }

  ghost predicate CreationsStored(cfg: Config, s: State) {
    forall i :: 0 <= i < |s.history| && s.history[i].Created? ==> Stored(cfg, s, s.history[i].job)
  }

  predicate CreatedRow(h: seq<Entry>, i: int, id: Id) {
    0 <= i < |h| && h[i].Created? && h[i].job.disbursement.id == id
  }

  predicate CreatedEventAt(h: seq<Entry>, i: int, id: Id) {
    0 <= i < |h| && h[i].Created? && h[i].job.eventId == id
  }

  /** No row and no event came from anywhere else. */
  ghost predicate TablesExplained(s: State) {
    && (forall id :: id in s.disbursements ==> exists i :: CreatedRow(s.history, i, id))
    && (forall id :: id in s.outbox ==> exists i :: CreatedEventAt(s.history, i, id))
  }

  ghost predicate Recorded(cfg: Config, s: State) {
    && Traced(s) && Once(s) && Settled(cfg, s) && Separated(cfg, s.history)
    && RowsClaimed(s) && CreationsClaimed(s.history) && ReclaimsChained(s.history)
    && CompletedFromCreation(cfg, s) && RepeatsTrue(cfg, s.history)
    && CreationsStored(cfg, s) && TablesExplained(s)
  }

  // ------------------------------------------------------- they are kept

  lemma KeepsTraced(cfg: Config, s: State, t: State, c: CallId)
    requires Effect(cfg, s, t, c) && Traced(s)
    requires AtOrPastCommit(s, c) ==> PastCommit(t, c)
    ensures Traced(t)
  {
    forall i | 0 <= i < |t.history|
      ensures var e := t.history[i];
              && (e.Claimed? ==> e.call in t.calls && t.calls[e.call].job.req == e.req)
              && (e.Created? ==> e.call in t.calls && t.calls[e.call].job == e.job
                                 && (t.calls[e.call].phase.Releasing? || t.calls[e.call].phase.Finished?))
    {
      if i < |s.history| { assert t.history[i] == s.history[i]; }
    }
  }

  lemma KeepsOnce(cfg: Config, s: State, t: State, c: CallId)
    requires Effect(cfg, s, t, c) && Traced(s) && Once(s)
    ensures Once(t)
  {
    forall i, j | 0 <= i < j < |t.history| && t.history[i].Created? && t.history[j].Created?
      ensures t.history[i].call != t.history[j].call
    {
      assert t.history[i] == s.history[i];
      if j < |s.history| { assert t.history[j] == s.history[j]; }
    }
  }

  lemma KeepsSettled(cfg: Config, s: State, t: State, c: CallId)
    requires Effect(cfg, s, t, c) && Settled(cfg, s)
    ensures Settled(cfg, t)
  {
    forall i | 0 <= i < |t.history| && t.history[i].Created?
      ensures var job := t.history[i].job;
              || StoredKey(t, job.req.scope) == Some(CompletedRow(cfg, job))
              || exists k :: i < k && Supersedes(cfg, t.history, k, job)
    {
      var job := t.history[i].job;
      if i < |s.history| {
        assert t.history[i] == s.history[i];
        if StoredKey(s, job.req.scope) == Some(CompletedRow(cfg, job)) {
          if StoredKey(t, job.req.scope) != StoredKey(s, job.req.scope) {
            assert Claims(s, t, c);
            assert Supersedes(cfg, t.history, |s.history|, job);
          }
        } else {
          var k :| i < k && Supersedes(cfg, s.history, k, job);
          assert Supersedes(cfg, t.history, k, job);
        }
      }
    }
  }

  lemma KeepsSeparated(cfg: Config, s: State, t: State, c: CallId)
    requires Effect(cfg, s, t, c) && Settled(cfg, s) && Separated(cfg, s.history)
    ensures Separated(cfg, t.history)
  {
    forall i, j, scope | CreatedAt(t.history, i, scope) && CreatedAt(t.history, j, scope) && i < j
      ensures exists k :: i < k < j && Supersedes(cfg, t.history, k, t.history[i].job)
    {
      assert CreatedAt(s.history, i, scope) && t.history[i] == s.history[i];
      if j < |s.history| {
        assert CreatedAt(s.history, j, scope);
        var k :| i < k < j && Supersedes(cfg, s.history, k, s.history[i].job);
        assert Supersedes(cfg, t.history, k, t.history[i].job);
      } else {
        assert Creates(cfg, s, t, c);
        var k :| i < k && Supersedes(cfg, s.history, k, s.history[i].job);
        assert Supersedes(cfg, t.history, k, t.history[i].job);
      }
    }
  }

  lemma LastClaimStays(h: seq<Entry>, g: seq<Entry>, m: int, scope: Scope, n: int)
    requires h <= g && n <= |h|
    ensures LastClaim(g, m, scope, n) <==> LastClaim(h, m, scope, n)
  {
    assert forall k :: 0 <= k < n ==> g[k] == h[k];
    assert forall k :: k < n ==> (ClaimedAt(g, k, scope) <==> ClaimedAt(h, k, scope));
  }

  lemma KeepsRowsClaimed(cfg: Config, s: State, t: State, c: CallId)
    requires Effect(cfg, s, t, c) && RowsClaimed(s)
    ensures RowsClaimed(t)
  {
    var n := |s.history|;
    forall scope | scope in t.keys
      ensures exists m :: LastClaim(t.history, m, scope, |t.history|) && SameClaim(t.keys[scope], t.history[m].req)
    {
      assert StoredKey(t, scope) == Some(t.keys[scope]);
      if Claims(s, t, c) && scope == ScopeOf(t.calls[c]) {
        assert LastClaim(t.history, n, scope, |t.history|);
      } else {
        assert scope in s.keys;
        assert forall req :: SameClaim(s.keys[scope], req) ==> SameClaim(t.keys[scope], req);
        var m :| LastClaim(s.history, m, scope, n) && SameClaim(s.keys[scope], s.history[m].req);
        LastClaimStays(s.history, t.history, m, scope, n);
        assert LastClaim(t.history, m, scope, |t.history|);
      }
    }
  }

  lemma KeepsCreationsClaimed(cfg: Config, s: State, t: State, c: CallId)
    requires Effect(cfg, s, t, c) && RowsClaimed(s) && CreationsClaimed(s.history)
    ensures CreationsClaimed(t.history)
  {
    forall j, scope | CreatedAt(t.history, j, scope)
      ensures exists m :: LastClaim(t.history, m, scope, j)
                && SameClaim(ClaimRow(t.history[j].job.req), t.history[m].req)
    {
      var m: int;
      if j < |s.history| {
        assert CreatedAt(s.history, j, scope);
        m :| LastClaim(s.history, m, scope, j) && SameClaim(ClaimRow(s.history[j].job.req), s.history[m].req);
      } else {
        assert Creates(cfg, s, t, c) && scope in s.keys;
        m :| LastClaim(s.history, m, scope, j) && SameClaim(s.keys[scope], s.history[m].req);
      }
      LastClaimStays(s.history, t.history, m, scope, j);
    }
  }

  lemma KeepsReclaimsChained(cfg: Config, s: State, t: State, c: CallId)
    requires Effect(cfg, s, t, c) && RowsClaimed(s) && ReclaimsChained(s.history)
    ensures ReclaimsChained(t.history)
  {
    forall q, scope | ClaimedAt(t.history, q, scope) && t.history[q].prior.Some?
      ensures ReclaimGuard(t.history[q].prior.value, t.history[q].req)
      ensures exists p :: LastClaim(t.history, p, scope, q) && SameClaim(t.history[q].prior.value, t.history[p].req)
    {
      var p: int;
      if q < |s.history| {
        assert ClaimedAt(s.history, q, scope);
        p :| LastClaim(s.history, p, scope, q) && SameClaim(s.history[q].prior.value, s.history[p].req);
      } else {
        assert Claims(s, t, c) && scope in s.keys;
        p :| LastClaim(s.history, p, scope, q) && SameClaim(s.keys[scope], s.history[p].req);
      }
      LastClaimStays(s.history, t.history, p, scope, q);
    }
  }

  lemma SourceStays(cfg: Config, h: seq<Entry>, g: seq<Entry>, i: int, scope: Scope, row: KeyRow, n: int)
    requires h <= g && n <= |h| && Source(cfg, h, i, scope, row, n)
    ensures Source(cfg, g, i, scope, row, n)
  {
    assert forall k :: 0 <= k < n ==> g[k] == h[k];
    assert forall k :: k < n ==> (Supersedes(cfg, g, k, h[i].job) <==> Supersedes(cfg, h, k, h[i].job));
  }

  lemma KeepsCompleted(cfg: Config, s: State, t: State, c: CallId)
    requires Effect(cfg, s, t, c) && CompletedFromCreation(cfg, s)
    ensures CompletedFromCreation(cfg, t)
  {
    var n := |s.history|;
    forall scope | scope in t.keys && t.keys[scope].state == Completed
      ensures exists i :: Source(cfg, t.history, i, scope, t.keys[scope], |t.history|)
    {
      assert StoredKey(t, scope) == Some(t.keys[scope]);
      if Creates(cfg, s, t, c) && scope == ScopeOf(t.calls[c]) {
        assert Source(cfg, t.history, n, scope, t.keys[scope], |t.history|);
      } else {
        assert StoredKey(s, scope) == StoredKey(t, scope);
        var i :| Source(cfg, s.history, i, scope, s.keys[scope], n);
        SourceStays(cfg, s.history, t.history, i, scope, s.keys[scope], n);
        assert n < |t.history| ==> !Supersedes(cfg, t.history, n, t.history[i].job);
        assert Source(cfg, t.history, i, scope, t.keys[scope], |t.history|);
      }
    }
  }

  lemma KeepsRepeats(cfg: Config, s: State, t: State, c: CallId)
    requires Effect(cfg, s, t, c) && CompletedFromCreation(cfg, s) && RepeatsTrue(cfg, s.history)
    ensures RepeatsTrue(cfg, t.history)
  {
    var n := |s.history|;
    forall j | 0 <= j < |t.history| && t.history[j].Repeated? ensures exists i :: Echoes(cfg, t.history, i, j) {
      if j < n {
        assert t.history[j] == s.history[j];
        var i :| Echoes(cfg, s.history, i, j);
        SourceStays(cfg, s.history, t.history, i, t.history[j].req.scope, CompletedRow(cfg, s.history[i].job), j);
        assert Echoes(cfg, t.history, i, j);
      } else {
        assert Repeats(s, t, c);
        var scope := ScopeOf(t.calls[c]);
        assert scope in s.keys;
        var i :| Source(cfg, s.history, i, scope, s.keys[scope], n);
        SourceStays(cfg, s.history, t.history, i, scope, s.keys[scope], n);
        assert Echoes(cfg, t.history, i, j);
      }
    }
  }

  lemma StoredStays(cfg: Config, s: State, t: State, c: CallId, i: nat)
    requires Effect(cfg, s, t, c) && Traced(s) && IdsApart(s)
    requires i < |s.history| && s.history[i].Created? && Stored(cfg, s, s.history[i].job)
    ensures Stored(cfg, t, s.history[i].job)
  {
    if Creates(cfg, s, t, c) {
      var d := s.history[i].call;
      assert d != c && s.calls[d].job == s.history[i].job;
    }
  }

  lemma KeepsCreationsStored(cfg: Config, s: State, t: State, c: CallId)
    requires Effect(cfg, s, t, c) && CreationsStored(cfg, s) && Traced(s) && IdsApart(s)
    ensures CreationsStored(cfg, t)
  {
    forall i | 0 <= i < |t.history| && t.history[i].Created? ensures Stored(cfg, t, t.history[i].job) {
      if i < |s.history| {
        assert t.history[i] == s.history[i];
        StoredStays(cfg, s, t, c, i);
      }
    }
  }

  lemma KeepsTablesExplained(cfg: Config, s: State, t: State, c: CallId)
    requires Effect(cfg, s, t, c) && TablesExplained(s)
    ensures TablesExplained(t)
  {
    var n := |s.history|;
    forall id | id in t.disbursements ensures exists i :: CreatedRow(t.history, i, id) {
      if id in s.disbursements {
        var i :| CreatedRow(s.history, i, id);
        assert CreatedRow(t.history, i, id);
      } else {
        assert CreatedRow(t.history, n, id);
      }
    }
    forall id | id in t.outbox ensures exists i :: CreatedEventAt(t.history, i, id) {
      if id in s.outbox {
        var i :| CreatedEventAt(s.history, i, id);
        assert CreatedEventAt(t.history, i, id);
      } else {
        assert CreatedEventAt(t.history, n, id);
      }
    }
  }

  /** The call has committed, or can only commit next. */
  predicate AtOrPastCommit(s: State, c: CallId) {
    c in s.calls && (s.calls[c].phase.Completing? || PastCommit(s, c))
  }

  predicate PastCommit(s: State, c: CallId) {
    c in s.calls && (s.calls[c].phase.Releasing? || s.calls[c].phase.Finished?)
  }

  lemma PhaseMovesOn(cfg: Config, s: State, a: Action)
    requires Enabled(cfg, s, a) && AtOrPastCommit(s, a.c)
    ensures PastCommit(Apply(cfg, s, a), a.c)
  {
  }

  lemma EffectKeepsRecorded(cfg: Config, s: State, t: State, c: CallId)
    requires Recorded(cfg, s) && IdsApart(s) && Effect(cfg, s, t, c)
    requires AtOrPastCommit(s, c) ==> PastCommit(t, c)
    ensures Recorded(cfg, t)
  {
    KeepsTraced(cfg, s, t, c);
    KeepsOnce(cfg, s, t, c);
    KeepsSettled(cfg, s, t, c);
    KeepsSeparated(cfg, s, t, c);
    KeepsRowsClaimed(cfg, s, t, c);
    KeepsCreationsClaimed(cfg, s, t, c);
    KeepsReclaimsChained(cfg, s, t, c);
    KeepsCompleted(cfg, s, t, c);
    KeepsRepeats(cfg, s, t, c);
    KeepsCreationsStored(cfg, s, t, c);
    KeepsTablesExplained(cfg, s, t, c);
  }

  lemma StepKeepsRecorded(cfg: Config, s: State, a: Action)
    requires Safe(cfg, s) && Recorded(cfg, s) && Enabled(cfg, s, a)
    ensures Safe(cfg, Apply(cfg, s, a)) && Recorded(cfg, Apply(cfg, s, a))
  {
    StepEffect(cfg, s, a);
    if AtOrPastCommit(s, a.c) { PhaseMovesOn(cfg, s, a); }
    EffectKeepsRecorded(cfg, s, Apply(cfg, s, a), a.c);
  }

  lemma {:induction false} RunIsRecorded(cfg: Config, states: seq<State>, actions: seq<Action>, n: nat)
    requires IsRun(cfg, states, actions) && n < |states|
    ensures Safe(cfg, states[n]) && Recorded(cfg, states[n])
  {
    if n > 0 {
      RunIsRecorded(cfg, states, actions, n - 1);
      StepKeepsRecorded(cfg, states[n - 1], actions[n - 1]);
    }
  }
}
