/**
 * What the spacing of creations depends on: a call that read the clock early and stalled before its insert
 * can still create, and inside an earlier creation's window exactly if its reading was before that window's end.
 */
module IdempotencyStall {
  import opened Common
  import opened Idempotency
  import opened IdempotencyProtocol
  import opened IdempotencyInvariant
  import opened IdempotencyHistory
  import D = Domain
  import A = Audit
  import T = IdempotencyTheorems

  /** A run so far; what follows speaks of the states it can still reach. */
  datatype Origin = Origin(cfg: Config, states: seq<State>, actions: seq<Action>)

  ghost predicate Continues(o: Origin, states: seq<State>, actions: seq<Action>) {
    IsRun(o.cfg, states, actions) && o.states <= states && o.actions <= actions
  }

  ghost predicate EndsIn(o: Origin, states: seq<State>, actions: seq<Action>, s: State) {
    Continues(o, states, actions) && states[|states| - 1] == s
  }

  /** Some continuation ends in `s`. */
  ghost predicate From(o: Origin, s: State) {
    exists states, actions :: EndsIn(o, states, actions, s)
  }

  lemma LongerRun(o: Origin, states: seq<State>, actions: seq<Action>, a: Action, t: State)
    requires Continues(o, states, actions) && Enabled(o.cfg, states[|states| - 1], a)
    requires t == Apply(o.cfg, states[|states| - 1], a)
    ensures Continues(o, states + [t], actions + [a])
  {
  }

  lemma Extend(o: Origin, s: State, a: Action, t: State)
    requires From(o, s) && Enabled(o.cfg, s, a) && t == Apply(o.cfg, s, a)
    ensures From(o, t)
  {
    var states, actions :| EndsIn(o, states, actions, s);
    LongerRun(o, states, actions, a, t);
    assert EndsIn(o, states + [t], actions + [a], t);
  }

  /** What one call sees: itself, its slot and the tables it inserts into. */
  datatype View = View(
    call: Call, key: Option<KeyRow>, lock: Option<CallId>, rows: set<Id>, events: set<Id>, history: seq<Entry>)

  function ViewOf(s: State, c: CallId): View
    requires c in s.calls
  {
    View(s.calls[c], StoredKey(s, ScopeOf(s.calls[c])), LockAt(s, ScopeOf(s.calls[c])),
         s.disbursements.Keys, s.outbox.Keys, s.history)
  }

  ghost predicate Sees(o: Origin, s: State, c: CallId, v: View) {
    From(o, s) && c in s.calls && ViewOf(s, c) == v
  }

  /** Every other call is as it was. */
  ghost predicate Others(s: State, t: State, c: CallId) {
    t.calls.Keys == s.calls.Keys && forall d :: d in s.calls && d != c ==> t.calls[d] == s.calls[d]
  }

  function In(v: View, phase: Phase, staged: Writes): View { v.(call := v.call.(phase := phase, staged := staged)) }

  // The steps of a creation in an empty slot.

  lemma Inserts(o: Origin, s: State, c: CallId, v: View) returns (t: State)
    requires Sees(o, s, c, v) && v.call.phase.Claiming? && v.key.None?
    ensures Others(s, t, c)
    ensures Sees(o, t, c, In(v, Owner, v.call.staged).(
              key := Some(ClaimRow(v.call.job.req)), history := v.history + [Claimed(c, v.call.job.req, None)]))
  {
    t := AfterTryInsert(s, c);
    Extend(o, s, TryInsert(c), t);
  }

  lemma Verifies(o: Origin, s: State, c: CallId, v: View) returns (t: State)
    requires Sees(o, s, c, v) && v.call.phase.Owner? && v.key == Some(ClaimRow(v.call.job.req)) && v.lock.None?
    ensures Others(s, t, c) && Sees(o, t, c, In(v, Verified, v.call.staged).(lock := Some(c)))
  {
    t := AfterVerify(s, c);
    Extend(o, s, Verify(c), t);
  }

  lemma StagesRow(o: Origin, s: State, c: CallId, v: View) returns (t: State)
    requires Sees(o, s, c, v) && v.call.phase.Verified? && v.call.job.disbursement.id !in v.rows
    ensures Others(s, t, c) && Sees(o, t, c, In(v, Inserted, v.call.staged.(rows := StagedRows(v.call.job))))
  {
    t := AfterInsertDisbursement(s, c);
    Extend(o, s, InsertDisbursement(c), t);
  }

  lemma StagesEvent(o: Origin, s: State, c: CallId, v: View, events: map<Id, A.AuditEvent>) returns (t: State)
    requires Sees(o, s, c, v) && v.call.phase.Inserted? && v.call.job.eventId !in v.events
    requires StagedEvents(o.cfg, v.call.job, events)
    ensures Others(s, t, c) && Sees(o, t, c, In(v, Audited, v.call.staged.(events := events)))
  {
    t := AfterInsertEvent(o.cfg, s, c);
    Extend(o, s, InsertEvent(c), t);
  }

  lemma Completes(o: Origin, s: State, c: CallId, v: View) returns (t: State)
    requires Sees(o, s, c, v) && v.call.phase.Audited? && v.key == Some(ClaimRow(v.call.job.req))
    ensures Others(s, t, c)
    ensures Sees(o, t, c, In(v, Completing, v.call.staged.(key := Some(CompletedRow(o.cfg, v.call.job)))))
  {
    t := AfterComplete(o.cfg, s, c);
    Extend(o, s, Complete(c), t);
  }

  function Committed(c: CallId, v: View): View {
    In(v, Finished(Succeeded), NO_WRITES).(
      key := v.call.staged.key, lock := None, rows := v.rows + v.call.staged.rows.Keys,
      events := v.events + v.call.staged.events.Keys, history := v.history + [Created(c, v.call.job)])
  }

  lemma Commits(o: Origin, s: State, c: CallId, v: View) returns (t: State)
    requires Sees(o, s, c, v) && v.call.phase.Completing? && v.lock == Some(c) && v.call.staged.key.Some?
    ensures Others(s, t, c)
    ensures Sees(o, t, c, Committed(c, v))
  {
    t := AfterCommit(s, c, true);
    Extend(o, s, Commit(c, true), t);
  }

  // The steps of a call that takes over an expired row and then fails.

  lemma Conflicts(o: Origin, s: State, c: CallId, v: View) returns (t: State)
    requires Sees(o, s, c, v) && v.call.phase.Claiming? && v.key.Some?
    ensures Others(s, t, c) && Sees(o, t, c, In(v, Conflicted, v.call.staged))
  {
    t := AfterTryInsert(s, c);
    Extend(o, s, TryInsert(c), t);
  }

  lemma Locks(o: Origin, s: State, c: CallId, v: View) returns (t: State)
    requires Sees(o, s, c, v) && v.call.phase.Conflicted? && v.key.Some? && v.lock.None?
    ensures Others(s, t, c) && Sees(o, t, c, In(v, Loaded(v.key.value), v.call.staged).(lock := Some(c)))
  {
    t := AfterLockRow(s, c);
    Extend(o, s, LockRow(c), t);
  }

  lemma Reclaims(o: Origin, s: State, c: CallId, v: View) returns (t: State)
    requires Sees(o, s, c, v) && v.key.Some? && v.call.phase == Loaded(v.key.value)
    requires v.key.value.expiresAt <= v.call.job.req.now
    ensures Others(s, t, c)
    ensures Sees(o, t, c, In(v, ReclaimStaged, v.call.staged.(key := Some(ClaimRow(v.call.job.req)))))
  {
    ClassifierAgreesWithGuard(v.key.value, v.call.job.req);
    t := AfterDecide(s, c);
    Extend(o, s, Decide(c), t);
  }

  lemma CommitsReclaim(o: Origin, s: State, c: CallId, v: View) returns (t: State)
    requires Sees(o, s, c, v) && v.call.phase.ReclaimStaged? && v.lock == Some(c)
    requires v.call.staged == NO_WRITES.(key := Some(ClaimRow(v.call.job.req)))
    ensures Others(s, t, c)
    ensures Sees(o, t, c, In(v, Owner, NO_WRITES).(
              key := v.call.staged.key, lock := None, history := v.history + [Claimed(c, v.call.job.req, v.key)]))
  {
    t := AfterCommitReclaim(s, c, true);
    Extend(o, s, CommitReclaim(c, true), t);
  }

  lemma Fails(o: Origin, s: State, c: CallId, v: View) returns (t: State)
    requires Sees(o, s, c, v) && v.call.phase.Owner? && v.lock.None?
    ensures Others(s, t, c) && Sees(o, t, c, In(v, Releasing(Dependency), NO_WRITES))
  {
    t := Rollback(s, c, Releasing(Dependency));
    Extend(o, s, Abort(c), t);
  }

  lemma Releases(o: Origin, s: State, c: CallId, v: View) returns (t: State)
    requires Sees(o, s, c, v) && v.call.phase.Releasing? && v.lock.None? && v.key == Some(ClaimRow(v.call.job.req))
    ensures Others(s, t, c)
    ensures Sees(o, t, c, In(v, Finished(Failed(v.call.phase.reason)), NO_WRITES).(key := None))
  {
    t := AfterRelease(s, c);
    Extend(o, s, Release(c), t);
  }

  // ---------------------------------------------------------- put together

  ghost predicate AtEmptySlot(cfg: Config, v: View) {
    && v.call.phase.Claiming? && v.call.staged == NO_WRITES && v.key.None? && v.lock.None?
    && v.call.job.disbursement.id !in v.rows && v.call.job.eventId !in v.events && CreatedEvent(cfg, v.call.job).Some?
  }

  function AfterCreation(cfg: Config, c: CallId, v: View): View {
    In(v, Finished(Succeeded), NO_WRITES).(
      key := Some(CompletedRow(cfg, v.call.job)), lock := None, rows := v.rows + {v.call.job.disbursement.id},
      events := v.events + {v.call.job.eventId},
      history := v.history + [Claimed(c, v.call.job.req, None)] + [Created(c, v.call.job)])
  }

  /** From the granted claim to the staged completion. */
  lemma StagesAll(o: Origin, s: State, c: CallId, v: View, writes: Writes) returns (t: State)
    requires Sees(o, s, c, v) && v.call.phase.Owner? && v.call.staged == NO_WRITES && v.lock.None?
    requires v.key == Some(ClaimRow(v.call.job.req))
    requires v.call.job.disbursement.id !in v.rows && v.call.job.eventId !in v.events
    requires writes.key == Some(CompletedRow(o.cfg, v.call.job)) && writes.rows == StagedRows(v.call.job)
    requires StagedEvents(o.cfg, v.call.job, writes.events)
    ensures Others(s, t, c) && Sees(o, t, c, In(v.(lock := Some(c)), Completing, writes))
  {
    var held := v.(lock := Some(c));
    t := Verifies(o, s, c, v);
    t := StagesRow(o, t, c, In(held, Verified, NO_WRITES));
    t := StagesEvent(o, t, c, In(held, Inserted, NO_WRITES.(rows := writes.rows)), writes.events);
    t := Completes(o, t, c, In(held, Audited, writes.(key := None)));
  }

  function Owned(c: CallId, v: View): View {
    In(v, Owner, NO_WRITES).(
      key := Some(ClaimRow(v.call.job.req)), history := v.history + [Claimed(c, v.call.job.req, None)])
  }

  function AllWrites(cfg: Config, job: Job): Writes
    requires CreatedEvent(cfg, job).Some?
  {
    Writes(Some(CompletedRow(cfg, job)), StagedRows(job), map[job.eventId := CreatedEvent(cfg, job).value])
  }

  lemma CreationInViews(cfg: Config, c: CallId, v: View)
    requires CreatedEvent(cfg, v.call.job).Some?
    ensures Committed(c, In(Owned(c, v).(lock := Some(c)), Completing, AllWrites(cfg, v.call.job)))
         == AfterCreation(cfg, c, v)
  {
    var writes := AllWrites(cfg, v.call.job);
    assert writes.rows.Keys == {v.call.job.disbursement.id} && writes.events.Keys == {v.call.job.eventId};
  }

  lemma CreatesInEmptySlot(o: Origin, s: State, c: CallId, v: View) returns (t: State)
    requires Sees(o, s, c, v) && AtEmptySlot(o.cfg, v)
    ensures Others(s, t, c) && Sees(o, t, c, AfterCreation(o.cfg, c, v))
  {
    var writes := AllWrites(o.cfg, v.call.job);
    t := Inserts(o, s, c, v);
    t := StagesAll(o, t, c, Owned(c, v), writes);
    t := Commits(o, t, c, In(Owned(c, v).(lock := Some(c)), Completing, writes));
    CreationInViews(o.cfg, c, v);
  }

  function AfterTakeOver(c: CallId, v: View): View {
    In(v, Finished(Failed(Dependency)), NO_WRITES).(
      key := None, history := v.history + [Claimed(c, v.call.job.req, v.key)])
  }

  lemma TakesOverAndFails(o: Origin, s: State, c: CallId, v: View) returns (t: State)
    requires Sees(o, s, c, v) && v.call.phase.Claiming? && v.call.staged == NO_WRITES && v.lock.None?
    requires v.key.Some? && v.key.value.expiresAt <= v.call.job.req.now
    ensures Others(s, t, c) && Sees(o, t, c, AfterTakeOver(c, v))
  {
    var claim := Some(ClaimRow(v.call.job.req));
    var held := v.(lock := Some(c));
    t := Conflicts(o, s, c, v);
    t := Locks(o, t, c, In(v, Conflicted, NO_WRITES));
    t := Reclaims(o, t, c, In(held, Loaded(v.key.value), NO_WRITES));
    t := CommitsReclaim(o, t, c, In(held, ReclaimStaged, NO_WRITES.(key := claim)));
    var owned := v.(key := claim, history := v.history + [Claimed(c, v.call.job.req, v.key)]);
    t := Fails(o, t, c, In(owned, Owner, NO_WRITES));
    t := Releases(o, t, c, In(owned, Releasing(Dependency), NO_WRITES));
  }

  /** Calls of one scope see the same slot. */
  lemma SeesToo(o: Origin, s: State, c: CallId, v: View, d: CallId)
    requires Sees(o, s, c, v) && d in s.calls && ScopeOf(s.calls[d]) == ScopeOf(v.call)
    ensures Sees(o, s, d, v.(call := s.calls[d]))
  {
  }

  // ------------------------------------------ from any state of any run

  lemma ReachedIsRecorded(o: Origin, s: State)
    requires From(o, s)
    ensures Safe(o.cfg, s) && Recorded(o.cfg, s)
  {
    var states, actions :| EndsIn(o, states, actions, s);
    RunIsRecorded(o.cfg, states, actions, |states| - 1);
  }

  /** A call that has not inserted its claim has left nothing behind. */
  lemma ClaimingHasStoredNothing(cfg: Config, s: State, c: CallId)
    requires IdsApart(s) && Traced(s) && TablesExplained(s) && c in s.calls && s.calls[c].phase.Claiming?
    ensures s.calls[c].job.disbursement.id !in s.disbursements && s.calls[c].job.eventId !in s.outbox
  {
  }

  /** What the invariants say about a call that waits at its insert. */
  lemma WaitingCall(o: Origin, s: State, c: CallId)
    requires From(o, s) && c in s.calls && s.calls[c].phase.Claiming?
    ensures ValidJob(o.cfg, s.calls[c].job) && s.calls[c].staged == NO_WRITES
    ensures CreatedEvent(o.cfg, s.calls[c].job).Some?
    ensures s.calls[c].job.disbursement.id !in s.disbursements && s.calls[c].job.eventId !in s.outbox
  {
    ReachedIsRecorded(o, s);
    ClaimingHasStoredNothing(o.cfg, s, c);
    assert PhaseOk(o.cfg, s, s.calls[c]);
  }

  lemma LockHolder(o: Origin, s: State, scope: Scope)
    requires From(o, s) && scope in s.locks
    ensures var d := s.locks[scope]; d in s.calls && ScopeOf(s.calls[d]) == scope && HoldsLock(s.calls[d].phase)
  {
    ReachedIsRecorded(o, s);
  }

  /** The holder of a lock can crash, which changes nothing else. */
  lemma HolderCrashes(o: Origin, s: State, d: CallId) returns (t: State)
    requires From(o, s) && d in s.calls && HoldsLock(s.calls[d].phase) && LockAt(s, ScopeOf(s.calls[d])) == Some(d)
    ensures From(o, t) && Others(s, t, d) && t.locks == s.locks - {ScopeOf(s.calls[d])}
    ensures t.keys == s.keys && t.disbursements == s.disbursements && t.outbox == s.outbox && t.history == s.history
  {
    t := Rollback(s, d, Finished(Failed(Crashed)));
    Extend(o, s, Crash(d), t);
  }

  /** If another transaction holds the slot's lock, the slot can still come free. */
  lemma FreesSlot(o: Origin, s: State, c: CallId) returns (t: State)
    requires From(o, s) && c in s.calls && s.calls[c].phase.Claiming?
    ensures From(o, t) && c in t.calls && ViewOf(t, c) == ViewOf(s, c).(lock := None)
    ensures ClaimingStay(s, t, c)
  {
    t := s;
    if ScopeOf(s.calls[c]) in s.locks {
      LockHolder(o, s, ScopeOf(s.calls[c]));
      t := HolderCrashes(o, s, s.locks[ScopeOf(s.calls[c])]);
    }
  }

  /** Calls other than `c` that wait at their insert still do. */
  ghost predicate ClaimingStay(s: State, t: State, c: CallId) {
    forall d :: d in s.calls && d != c && s.calls[d].phase.Claiming? ==> d in t.calls && t.calls[d] == s.calls[d]
  }

  lemma {:induction false} Above(ids: set<nat>) returns (n: nat)
    ensures forall id :: id in ids ==> id < n
  {
    if ids == {} {
      n := 0;
    } else {
      var id :| id in ids;
      var m := Above(ids - {id});
      n := if m <= id then id + 1 else m;
      assert ids == (ids - {id}) + {id};
    }
  }

  /** A later call under the same key, with identifiers of its own. */
  function LaterJob(cfg: Config, job: Job, n: nat, now: Time): Job {
    Job(job.input, ClaimRequest(job.req.scope, cfg.fingerprint(job.input), n + 1,
                                now + cfg.leaseTTL, now + cfg.replayTTL, now),
        D.NewDisbursement(cfg.fold, job.input, n + 2, job.req.scope.user, now), n + 3, 1)
  }

  lemma LaterJobIsValid(cfg: Config, job: Job, n: nat, now: Time)
    requires ValidJob(cfg, job)
    ensures ValidJob(cfg, LaterJob(cfg, job, n, now))
  {
  }

  /** Such a call can begin at any time, reading the clock at `now`. */
  lemma BeginsLater(o: Origin, s: State, c: CallId, now: Time) returns (t: State, e: CallId)
    requires From(o, s) && c in s.calls && ValidJob(o.cfg, s.calls[c].job)
    ensures e !in s.calls && e in t.calls && From(o, t)
    ensures ScopeOf(t.calls[e]) == ScopeOf(s.calls[c]) && t.calls[e].job.req.now == now
    ensures ViewOf(t, e) == ViewOf(s, c).(call := Call(t.calls[e].job, Claiming, NO_WRITES))
    ensures t.calls == s.calls[e := t.calls[e]]
  {
    e := Above(s.calls.Keys);
    var n := Above(s.issued);
    var job := LaterJob(o.cfg, s.calls[c].job, n, now);
    LaterJobIsValid(o.cfg, s.calls[c].job, n, now);
    t := s.(calls := s.calls[e := Call(job, Claiming, NO_WRITES)],
            issued := s.issued + {job.req.claimId, job.disbursement.id, job.eventId});
    assert Fresh(job) == [n + 1, n + 2, n + 3];
    Extend(o, s, Begin(e, job), t);
  }

  /** If a row is in the slot, a call after its expiry can take it over and fail. */
  lemma ClearsSlot(o: Origin, s: State, c: CallId) returns (t: State)
    requires From(o, s) && c in s.calls && ValidJob(o.cfg, s.calls[c].job)
    requires ViewOf(s, c).lock.None? && ViewOf(s, c).key.Some?
    ensures From(o, t) && (forall d :: d in s.calls ==> d in t.calls && t.calls[d] == s.calls[d])
    ensures s.history <= t.history && ViewOf(t, c) == ViewOf(s, c).(key := None, history := t.history)
  {
    var begun, e := BeginsLater(o, s, c, ViewOf(s, c).key.value.expiresAt);
    var v := ViewOf(begun, e);
    t := TakesOverAndFails(o, begun, e, v);
    SeesToo(o, t, e, AfterTakeOver(e, v), c);
  }

  lemma EmptiesSlot(o: Origin, s: State, c: CallId) returns (t: State)
    requires From(o, s) && c in s.calls && s.calls[c].phase.Claiming?
    ensures From(o, t) && c in t.calls && ClaimingStay(s, t, c)
    ensures s.history <= t.history && ViewOf(t, c) == ViewOf(s, c).(key := None, lock := None, history := t.history)
  {
    t := FreesSlot(o, s, c);
    WaitingCall(o, s, c);
    if ViewOf(t, c).key.Some? {
      t := ClearsSlot(o, t, c);
    }
  }

  /**
   * From every state of every run, every call that waits at its insert can still go on to commit its
   * creation, whatever is in its slot and whoever holds the lock.
   */
  lemma WaitingCallCanCreate(o: Origin, s: State, c: CallId) returns (t: State)
    requires From(o, s) && c in s.calls && s.calls[c].phase.Claiming?
    ensures From(o, t) && ClaimingStay(s, t, c)
    ensures s.history < t.history && t.history[|t.history| - 1] == Created(c, s.calls[c].job)
  {
    WaitingCall(o, s, c);
    var emptied := EmptiesSlot(o, s, c);
    t := CreatesInEmptySlot(o, emptied, c, ViewOf(emptied, c));
  }

  // ----------------------------------------------------- the exact condition

  /** The history has only grown, and call `c` works on the same job. */
  predicate Grown(s: State, t: State, c: CallId) {
    s.history <= t.history && (c in s.calls ==> c in t.calls && t.calls[c].job == s.calls[c].job)
  }

  lemma EffectGrows(cfg: Config, s: State, t: State, a: CallId, c: CallId)
    requires Effect(cfg, s, t, a)
    ensures Grown(s, t, c)
  {
  }

  lemma StepGrows(cfg: Config, states: seq<State>, actions: seq<Action>, n: nat, c: CallId)
    requires IsRun(cfg, states, actions) && n < |actions|
    ensures Grown(states[n], states[n + 1], c)
  {
    T.StepOfRun(cfg, states, actions, n);
    EffectGrows(cfg, states[n], states[n + 1], actions[n].c, c);
  }

  ghost predicate GrowsAt(states: seq<State>, k: nat, c: CallId) {
    k + 1 < |states| ==> Grown(states[k], states[k + 1], c)
  }

  lemma {:induction false} GrowthAddsUp(states: seq<State>, n: nat, m: nat, c: CallId)
    requires n <= m < |states| && forall k: nat :: GrowsAt(states, k, c)
    ensures Grown(states[n], states[m], c)
    decreases m
  {
    if n < m {
      GrowthAddsUp(states, n, m - 1, c);
      assert GrowsAt(states, m - 1, c);
    }
  }

  lemma RunGrows(cfg: Config, states: seq<State>, actions: seq<Action>, n: nat, m: nat, c: CallId)
    requires IsRun(cfg, states, actions) && n <= m < |states|
    ensures Grown(states[n], states[m], c)
  {
    forall k: nat ensures GrowsAt(states, k, c) {
      if k < |actions| { StepGrows(cfg, states, actions, k, c); }
    }
    GrowthAddsUp(states, n, m, c);
  }

  /** Entry `j` is the creation of call `c`, after entry `i` and claimed less than the replay window after it. */
  predicate CreatesClose(cfg: Config, h: seq<Entry>, i: nat, j: nat, c: CallId) {
    && i < j < |h| && h[i].Created? && h[j].Created? && h[j].call == c
    && h[j].job.req.now < h[i].job.req.now + cfg.replayTTL
  }

  /** In some continuation call `c` commits a creation inside the window of creation `i`. */
  ghost predicate MayCreateClose(o: Origin, i: nat, c: CallId) {
    exists s: State, j: nat :: From(o, s) && CreatesClose(o.cfg, s.history, i, j, c)
  }

  lemma CloseCreationWasEarly(o: Origin, s: State, i: nat, j: nat, c: CallId)
    requires IsRun(o.cfg, o.states, o.actions) && From(o, s) && CreatesClose(o.cfg, s.history, i, j, c)
    requires var now := o.states[|o.states| - 1]; i < |now.history| && now.history[i].Created? && c in now.calls
    ensures var now := o.states[|o.states| - 1]; now.calls[c].job.req.now < now.history[i].job.req.expiresAt
  {
    var states: seq<State>, actions: seq<Action> :| EndsIn(o, states, actions, s);
    var n, m := |o.states| - 1, |states| - 1;
    assert states[n] == o.states[n];
    RunGrows(o.cfg, states, actions, n, m, c);
    RunIsRecorded(o.cfg, states, actions, m);
    T.CreatedJobIsValid(o.cfg, states[m], i);
    assert states[m].history[i] == states[n].history[i];
    assert s.history[j].job == s.calls[c].job;
  }

  lemma EarlyCallMayCreateClose(o: Origin, s: State, i: nat, c: CallId)
    requires From(o, s) && i < |s.history| && s.history[i].Created? && c in s.calls && s.calls[c].phase.Claiming?
    requires s.calls[c].job.req.now < s.history[i].job.req.expiresAt
    ensures MayCreateClose(o, i, c)
  {
    ReachedIsRecorded(o, s);
    T.CreatedJobIsValid(o.cfg, s, i);
    var t := WaitingCallCanCreate(o, s, c);
    assert t.history[i] == s.history[i];
    assert CreatesClose(o.cfg, t.history, i, |t.history| - 1, c);
  }

  /**
   * The exact condition: a call that waits at its insert can still create inside the window of an earlier
   * creation under its key if and only if it read the clock before that window ended.
   */
  lemma CreatesInsideWindowIff(o: Origin, i: nat, c: CallId)
    requires IsRun(o.cfg, o.states, o.actions)
    requires var s := o.states[|o.states| - 1];
             && c in s.calls && s.calls[c].phase.Claiming? && CreatedAt(s.history, i, ScopeOf(s.calls[c]))
    ensures var s := o.states[|o.states| - 1];
            MayCreateClose(o, i, c) <==> s.calls[c].job.req.now < s.history[i].job.req.expiresAt
  {
    var s := o.states[|o.states| - 1];
    assert EndsIn(o, o.states, o.actions, s);
    if MayCreateClose(o, i, c) {
      var t, j :| From(o, t) && CreatesClose(o.cfg, t.history, i, j, c);
      CloseCreationWasEarly(o, t, i, j, c);
    }
    if s.calls[c].job.req.now < s.history[i].job.req.expiresAt {
      EarlyCallMayCreateClose(o, s, i, c);
    }
  }

  // -------------------------------------------------- and the case does occur

  const SCOPE := Scope(1, ENDPOINT, 2)

  /** A first call under that key. */
  function FirstJob(cfg: Config, input: D.CreateInput): Job {
    Job(input, ClaimRequest(SCOPE, cfg.fingerprint(input), 1, cfg.leaseTTL, cfg.replayTTL, 0),
        D.NewDisbursement(cfg.fold, input, 2, 1, 0), 3, 1)
  }

  lemma FirstBegins(o: Origin, input: D.CreateInput) returns (s: State)
    requires ValidConfig(o.cfg) && D.ValidInput(o.cfg.fold, input) && o.states == [] && o.actions == []
    ensures From(o, s) && s.history == [] && s.calls == map[0 := Call(FirstJob(o.cfg, input), Claiming, NO_WRITES)]
  {
    var start := State(map[], map[], map[], map[], map[], {}, []);
    assert EndsIn(o, [start], [], start);
    var job := FirstJob(o.cfg, input);
    s := start.(calls := map[0 := Call(job, Claiming, NO_WRITES)], issued := start.issued + {1, 2, 3});
    assert start.calls[0 := s.calls[0]] == s.calls && Fresh(job) == [1, 2, 3];
    Extend(o, start, Begin(0, job), s);
  }

  /** Two calls under one key have read the clock at the same time and wait. */
  lemma TwoWait(o: Origin, input: D.CreateInput) returns (s: State, e: CallId)
    requires ValidConfig(o.cfg) && D.ValidInput(o.cfg.fold, input) && o.states == [] && o.actions == []
    ensures From(o, s) && 0 in s.calls && e in s.calls && e != 0
    ensures s.calls[0].phase.Claiming? && ScopeOf(s.calls[0]) == SCOPE && s.calls[0].job.req.now == 0
    ensures s.calls[e].phase.Claiming? && ScopeOf(s.calls[e]) == SCOPE && s.calls[e].job.req.now == 0
  {
    s := FirstBegins(o, input);
    WaitingCall(o, s, 0);
    s, e := BeginsLater(o, s, 0, 0);
  }

  /** Both create. */
  lemma BothCreate(o: Origin, input: D.CreateInput) returns (s: State, i: nat)
    requires ValidConfig(o.cfg) && D.ValidInput(o.cfg.fold, input) && o.states == [] && o.actions == []
    ensures From(o, s) && i + 1 < |s.history|
    ensures CreatedAt(s.history, i, SCOPE) && CreatedAt(s.history, |s.history| - 1, SCOPE)
    ensures s.history[i].job.req.now == s.history[|s.history| - 1].job.req.now
  {
    var e: CallId;
    s, e := TwoWait(o, input);
    s := WaitingCallCanCreate(o, s, 0);
    i := |s.history| - 1;
    var first := s.history[i];
    s := WaitingCallCanCreate(o, s, e);
    assert s.history[i] == first;
  }

  /**
   * Without any clock condition the spacing fails: for every configuration and input there is a run with
   * two creations under one key whose claims are closer than the replay window.
   */
  lemma StalledInsertBreaksSpacing(cfg: Config, input: D.CreateInput)
      returns (states: seq<State>, actions: seq<Action>, i: nat, j: nat)
    requires ValidConfig(cfg) && D.ValidInput(cfg.fold, input)
    ensures IsRun(cfg, states, actions) && i < j
    ensures var h := states[|states| - 1].history;
            && CreatedAt(h, i, SCOPE) && CreatedAt(h, j, SCOPE)
            && h[j].job.req.now < h[i].job.req.now + cfg.replayTTL
  {
    var s: State;
    s, i := BothCreate(Origin(cfg, [], []), input);
    j := |s.history| - 1;
    states, actions :| EndsIn(Origin(cfg, [], []), states, actions, s);
  }
}
