/** What every step of the disbursement lifecycle keeps. */
module LifecycleProof {
  import opened Common
  import opened Domain
  import opened Lifecycle
  import A = Audit

  // --------------------------------------------------------- the invariant

  function LockAt(s: State, id: Id): Option<TxId> {
    if id in s.locks then Some(s.locks[id]) else None
  }

  /** The pre-read saw this row, and unless the row has been closed since, the row is as it was seen. */
  predicate Seen(s: State, id: Id, d: Disbursement) {
    id in s.rows && (Open(s.rows[id]) ==> d == FromRow(s.rows[id]))
  }

  ghost predicate RowStaged(s: State, tx: Tx, row: Row) {
    && row.id == tx.target && SchemaOk(row)
    && if tx.kind.Creating?
       then tx.target !in s.rows && tx.before.None? && Open(row) && row.createdBy == tx.actor && row.decisionNote.None?
       else && tx.target in s.rows && Open(s.rows[tx.target])
            && (exists now :: row == Changed(tx.kind, s.rows[tx.target], now))
            && (tx.before.Some? ==> tx.before.value == FromRow(s.rows[tx.target]))
  }

  ghost predicate EventStaged(codec: A.Codec, tx: Tx, row: Row, event: A.AuditEvent) {
    exists now :: EventFor(codec, tx, row, event.eventId, now) == Some(event)
  }

  ghost predicate PhaseOk(cfg: Config, s: State, tx: Tx) {
    && (tx.kind.Finalising? ==> ValidDecision(tx.kind.decision) && tx.kind.decision.actorId == tx.actor)
    && match tx.phase
       case Reading => !tx.kind.Creating? && (tx.kind.Finalising? ==> tx.before.Some?)
                       && (tx.before.Some? ==> Seen(s, tx.target, tx.before.value))
       case Missed => !tx.kind.Creating? && (tx.kind.Finalising? ==> tx.before.Some?)
                      && (tx.before.Some? ==> tx.target in s.rows && !Open(s.rows[tx.target]))
       case Updated(row) => RowStaged(s, tx, row)
       case Staged(row, event) => RowStaged(s, tx, row) && EventStaged(cfg.codec, tx, row, event)
       case Done(reply) => reply != ConcurrentUpdate && (reply == ConcurrentDelete ==> tx.before.None?)
  }

  ghost predicate PhasesOk(cfg: Config, s: State) {
    forall t :: t in s.txs ==> PhaseOk(cfg, s, s.txs[t])
  }

  ghost predicate LocksMatch(s: State) {
    && (forall id :: id in s.locks ==>
         s.locks[id] in s.txs && s.txs[s.locks[id]].target == id && HoldsLock(s.txs[s.locks[id]]))
    && (forall t :: t in s.txs && HoldsLock(s.txs[t]) ==>
         s.txs[t].target in s.locks && s.locks[s.txs[t].target] == t)
  }

  /** Rows are stored under their own identifier, meet the schema, and their identifiers were issued. */
  ghost predicate RowsOk(s: State) {
    forall id :: id in s.rows ==> s.rows[id].id == id && SchemaOk(s.rows[id]) && id in s.issued
  }

  ghost predicate CreatesApart(s: State) {
    && (forall t :: t in s.txs && s.txs[t].kind.Creating? ==> s.txs[t].target in s.issued)
    && (forall t, u :: t in s.txs && u in s.txs && t != u && s.txs[t].kind.Creating? && s.txs[u].kind.Creating? ==>
         s.txs[t].target != s.txs[u].target)
  }

  /** No two audit events, staged or committed, share an identifier. */
  ghost predicate EventsApart(s: State) {
    && (forall t :: t in s.txs && s.txs[t].phase.Staged? ==> s.txs[t].phase.event.eventId in s.issued)
    && (forall i :: 0 <= i < |s.history| ==> s.history[i].event.eventId in s.issued)
    && (forall t, u :: t in s.txs && u in s.txs && t != u && s.txs[t].phase.Staged? && s.txs[u].phase.Staged? ==>
         s.txs[t].phase.event.eventId != s.txs[u].phase.event.eventId)
    && (forall t, i :: t in s.txs && s.txs[t].phase.Staged? && 0 <= i < |s.history| ==>
         s.txs[t].phase.event.eventId != s.history[i].event.eventId)
    && (forall i, j :: 0 <= i < j < |s.history| ==> s.history[i].event.eventId != s.history[j].event.eventId)
  }

  ghost predicate Safe(cfg: Config, s: State) {
    PhasesOk(cfg, s) && LocksMatch(s) && RowsOk(s) && CreatesApart(s) && EventsApart(s)
  }

  // -------------------------------------------------- what one step touches

  ghost predicate Local(s: State, s': State, t: TxId) {
    && t in s'.txs
    && s'.txs.Keys == s.txs.Keys + {t}
    && (forall u :: u in s.txs && u != t ==> s'.txs[u] == s.txs[u])
    && (t in s.txs ==> s'.txs[t].kind == s.txs[t].kind && s'.txs[t].target == s.txs[t].target)
    && s.issued <= s'.issued
    && (forall id :: id != s'.txs[t].target ==>
         StoredRow(s', id) == StoredRow(s, id) && LockAt(s', id) == LockAt(s, id))
  }

  ghost predicate LockStep(s: State, s': State, t: TxId)
    requires t in s'.txs
  {
    var id := s'.txs[t].target;
    && (HoldsLock(s'.txs[t]) <==> LockAt(s', id) == Some(t))
    && (|| LockAt(s', id) == LockAt(s, id)
        || (LockAt(s, id) == Some(t) && LockAt(s', id).None?)
        || (LockAt(s, id).None? && LockAt(s', id) == Some(t)))
  }

  /** Who did it and when, as the row and the event say it. */
  predicate Attributed(e: Entry) {
    match e.kind
    case Creating => e.rowAfter.createdBy == e.event.actorId && e.rowAfter.createdAt == e.event.occurredAt
    case Finalising(_) =>
      e.rowAfter.decidedBy == Some(e.event.actorId) && e.rowAfter.decidedAt == Some(e.event.occurredAt)
    case Deleting => e.rowAfter.deletedAt == Some(e.event.occurredAt)
  }

  /** A committed mutation, seen as one entry of the trail. */
  ghost predicate EntryOk(codec: A.Codec, e: Entry) {
    && e.event.entityId == e.target && e.event.action == ActionName(e.kind)
    && e.event.after == Some(A.Snapshot(codec, FromRow(e.rowAfter)))
    && SchemaOk(e.rowAfter) && Attributed(e)
    && (e.event.before.Some? ==> exists d :: e.event.before == Some(A.Snapshot(codec, d)))
    && if e.kind.Creating?
       then e.rowBefore.None? && e.event.before.None? && Open(e.rowAfter) && e.rowAfter.decisionNote.None?
       else && e.rowBefore.Some? && Open(e.rowBefore.value)
            && (exists now :: e.rowAfter == Changed(e.kind, e.rowBefore.value, now))
            && !Open(e.rowAfter)
            && (e.preRead.Some? ==>
                 && e.preRead.value == FromRow(e.rowBefore.value)
                 && e.event.before == Some(A.Snapshot(codec, FromRow(e.rowBefore.value))))
  }

  /** A step shows nothing, or commits one mutation of a row that nobody else has locked. */
  ghost predicate RowStep(cfg: Config, s: State, s': State, t: TxId)
    requires t in s'.txs
  {
    var id := s'.txs[t].target;
    || (s'.rows == s.rows && s'.history == s.history)
    || (&& s'.history != []
        && var e := s'.history[|s'.history| - 1];
           && s'.history == s.history + [e] && e.target == id && EntryOk(cfg.codec, e)
           && e.rowBefore == StoredRow(s, id) && StoredRow(s', id) == Some(e.rowAfter)
           && e.rowAfter.id == id && s'.txs[t].phase.Done?
           && t in s.txs && e.kind == s.txs[t].kind && s.txs[t].phase.Staged? && e.event == s.txs[t].phase.event
           && (LockAt(s, id).None? || LockAt(s, id) == Some(t)))
  }

  /** A newly staged event has a new identifier. */
  ghost predicate EventStep(s: State, s': State, t: TxId)
    requires t in s'.txs
  {
    s'.txs[t].phase.Staged? ==>
      && s'.txs[t].phase.event.eventId in s'.issued
      && (|| s'.txs[t].phase.event.eventId !in s.issued
          || (t in s.txs && s.txs[t].phase == s'.txs[t].phase))
  }

  ghost predicate GoodStep(cfg: Config, s: State, s': State, t: TxId) {
    && Local(s, s', t) && PhaseOk(cfg, s', s'.txs[t]) && LockStep(s, s', t)
    && RowStep(cfg, s, s', t) && EventStep(s, s', t)
  }

  /** What one transaction can see of the invariant. */
  ghost predicate OwnView(cfg: Config, s: State, t: TxId) {
    && t in s.txs
    && PhaseOk(cfg, s, s.txs[t])
    && (HoldsLock(s.txs[t]) <==> LockAt(s, s.txs[t].target) == Some(t))
    && (s.txs[t].target in s.rows ==>
         s.rows[s.txs[t].target].id == s.txs[t].target && SchemaOk(s.rows[s.txs[t].target]))
    && (s.txs[t].kind.Creating? && !s.txs[t].phase.Done? ==> LockAt(s, s.txs[t].target).None?)
  }

  lemma RollbackIsGood(cfg: Config, s: State, t: TxId, reply: Reply)
    requires OwnView(cfg, s, t)
    requires reply != ConcurrentUpdate && (reply == ConcurrentDelete ==> s.txs[t].before.None?)
    ensures GoodStep(cfg, s, Rollback(s, t, reply), t)
  {
  }

  lemma BeginCreateIsGood(cfg: Config, s: State, t: TxId, input: CreateInput, id: Id, actor: Id, request: Id, now: Time)
    requires t !in s.txs && ValidInput(cfg.fold, input) && id !in s.rows && LockAt(s, id).None?
    ensures GoodStep(cfg, s, AfterBeginCreate(cfg, s, t, input, id, actor, request, now), t)
  {
    ValidInputMeetsSchema(cfg.fold, input, id, actor, now);
  }

  lemma PreReadIsGood(cfg: Config, s: State, t: TxId, kind: Kind, target: Id, actor: Id, request: Id)
    requires t !in s.txs && !kind.Creating?
    requires kind.Finalising? ==> ValidDecision(kind.decision) && kind.decision.actorId == actor
    requires LockAt(s, target) != Some(t)
    ensures GoodStep(cfg, s, AfterPreRead(s, t, kind, target, actor, request), t)
  {
  }

  lemma ChangeMeetsSchema(kind: Kind, row: Row, now: Time)
    requires SchemaOk(row) && Open(row) && !kind.Creating? && (kind.Finalising? ==> ValidDecision(kind.decision))
    ensures SchemaOk(Changed(kind, row, now)) && !Open(Changed(kind, row, now))
  {
  }

  lemma UpdateIsGood(cfg: Config, s: State, t: TxId, now: Time)
    requires OwnView(cfg, s, t) && s.txs[t].phase.Reading? && Free(s, s.txs[t].target, t)
    ensures GoodStep(cfg, s, AfterUpdate(s, t, now), t)
  {
    var tx := s.txs[t];
    if tx.target in s.rows && Open(s.rows[tx.target]) {
      ChangeMeetsSchema(tx.kind, s.rows[tx.target], now);
      assert RowStaged(AfterUpdate(s, t, now), tx, Changed(tx.kind, s.rows[tx.target], now));
    }
  }

  lemma DiagnoseIsGood(cfg: Config, s: State, t: TxId)
    requires OwnView(cfg, s, t) && s.txs[t].phase.Missed?
    ensures GoodStep(cfg, s, AfterDiagnose(s, t), t)
  {
    RollbackIsGood(cfg, s, t, Diagnosis(s.txs[t].kind, StoredRow(s, s.txs[t].target)));
  }

  lemma StageEventIsGood(cfg: Config, s: State, t: TxId, eventId: Id, now: Time)
    requires OwnView(cfg, s, t) && s.txs[t].phase.Updated? && eventId !in s.issued
    ensures GoodStep(cfg, s, AfterStageEvent(cfg, s, t, eventId, now), t)
  {
    var tx := s.txs[t];
    var event := EventFor(cfg.codec, tx, tx.phase.row, eventId, now);
    if event.None? {
      RollbackIsGood(cfg, s, t, Failed);
    } else {
      var tx' := tx.(phase := Staged(tx.phase.row, event.value));
      assert EventFor(cfg.codec, tx', tx.phase.row, event.value.eventId, now) == Some(event.value);
      assert RowStaged(s, tx, tx.phase.row);
    }
  }

  lemma CommittedEntryOk(cfg: Config, s: State, t: TxId)
    requires OwnView(cfg, s, t) && s.txs[t].phase.Staged?
    ensures EntryOk(cfg.codec, EntryOf(s, s.txs[t]))
  {
    var tx := s.txs[t];
    var row := tx.phase.row;
    assert tx.phase.event.before.Some? ==>
        tx.phase.event.before == Some(A.Snapshot(cfg.codec, OrElse(tx.before, ZERO)));
    if !tx.kind.Creating? {
      var now :| row == Changed(tx.kind, s.rows[tx.target], now);
      ChangeMeetsSchema(tx.kind, s.rows[tx.target], now);
    }
  }

  lemma CommitIsGood(cfg: Config, s: State, t: TxId, acknowledged: bool)
    requires OwnView(cfg, s, t) && s.txs[t].phase.Staged?
    ensures GoodStep(cfg, s, AfterCommit(s, t, acknowledged), t)
  {
    CommittedEntryOk(cfg, s, t);
  }

  lemma StepIsGood(cfg: Config, s: State, a: Action)
    requires Enabled(cfg, s, a)
    requires if a.BeginCreate? then a.id !in s.rows && LockAt(s, a.id).None?
             else if a.PreRead? then LockAt(s, a.target) != Some(a.t)
             else OwnView(cfg, s, a.t)
    ensures GoodStep(cfg, s, Apply(cfg, s, a), a.t)
  {
    match a
    case BeginCreate(t, input, id, actor, request, now) => BeginCreateIsGood(cfg, s, t, input, id, actor, request, now);
    case PreRead(t, kind, target, actor, request) => PreReadIsGood(cfg, s, t, kind, target, actor, request);
    case Update(t, now) => UpdateIsGood(cfg, s, t, now);
    case Diagnose(t) => DiagnoseIsGood(cfg, s, t);
    case StageEvent(t, eventId, now) => StageEventIsGood(cfg, s, t, eventId, now);
    case Commit(t, acknowledged) => CommitIsGood(cfg, s, t, acknowledged);
    case Abort(t) => RollbackIsGood(cfg, s, t, Failed);
  }

  // ------------------------------------------------------- it is inductive

  lemma CreatingRowUnlocked(cfg: Config, s: State, id: Id)
    requires PhasesOk(cfg, s) && LocksMatch(s) && id !in s.rows
    ensures LockAt(s, id).None?
  {
  }

  lemma SafeGivesOwnView(cfg: Config, s: State, t: TxId)
    requires Safe(cfg, s) && t in s.txs
    ensures OwnView(cfg, s, t)
  {
    var tx := s.txs[t];
    assert PhaseOk(cfg, s, tx);
    if tx.kind.Creating? && !tx.phase.Done? { CreatingRowUnlocked(cfg, s, tx.target); }
  }

  lemma SafeStep(cfg: Config, s: State, a: Action)
    requires Safe(cfg, s) && Enabled(cfg, s, a)
    ensures GoodStep(cfg, s, Apply(cfg, s, a), a.t)
  {
    if a.BeginCreate? {
      CreatingRowUnlocked(cfg, s, a.id);
    } else if !a.PreRead? {
      SafeGivesOwnView(cfg, s, a.t);
    }
    StepIsGood(cfg, s, a);
  }

  lemma KeepsLocks(cfg: Config, s: State, s': State, t: TxId)
    requires LocksMatch(s) && GoodStep(cfg, s, s', t)
    ensures LocksMatch(s')
  {
    var own := s'.txs[t].target;
    forall id | id in s'.locks
      ensures s'.locks[id] in s'.txs && s'.txs[s'.locks[id]].target == id && HoldsLock(s'.txs[s'.locks[id]])
    {
      assert LockAt(s', id) == Some(s'.locks[id]);
      assert id != own ==> LockAt(s, id) == LockAt(s', id);
    }
    forall u | u in s'.txs && HoldsLock(s'.txs[u])
      ensures s'.txs[u].target in s'.locks && s'.locks[s'.txs[u].target] == u
    {
      if u != t {
        assert LockAt(s, s.txs[u].target) == Some(u);
        assert LockAt(s', s'.txs[u].target) == Some(u);
      } else {
        assert LockAt(s', own) == Some(t);
      }
    }
  }

  /** Another transaction's commit may close the row this one has read, never the row it has locked. */
  lemma OtherPhaseKept(cfg: Config, s: State, s': State, t: TxId, u: TxId)
    requires GoodStep(cfg, s, s', t) && u in s.txs && u != t && OwnView(cfg, s, u)
    requires s.txs[u].kind.Creating? && t in s.txs && s.txs[t].kind.Creating? ==> s.txs[u].target != s.txs[t].target
    ensures PhaseOk(cfg, s', s'.txs[u])
  {
    var tx := s.txs[u];
    assert s'.txs[u] == tx;
    assert StoredRow(s', tx.target) != StoredRow(s, tx.target) ==> tx.target == s'.txs[t].target;
    match tx.phase
    case Reading =>
    case Missed =>
    case Updated(row) =>
      assert StoredRow(s', tx.target) == StoredRow(s, tx.target);
      assert RowStaged(s', tx, row);
    case Staged(row, event) =>
      assert StoredRow(s', tx.target) == StoredRow(s, tx.target);
      assert RowStaged(s', tx, row);
    case Done(_) =>
  }

  lemma KeepsPhases(cfg: Config, s: State, s': State, t: TxId)
    requires Safe(cfg, s) && GoodStep(cfg, s, s', t)
    ensures PhasesOk(cfg, s')
  {
    forall u | u in s'.txs ensures PhaseOk(cfg, s', s'.txs[u]) {
      if u != t {
        SafeGivesOwnView(cfg, s, u);
        OtherPhaseKept(cfg, s, s', t, u);
      }
    }
  }

  lemma KeepsRows(cfg: Config, s: State, s': State, t: TxId)
    requires RowsOk(s) && CreatesApart(s) && GoodStep(cfg, s, s', t)
    ensures RowsOk(s')
  {
    forall id | id in s'.rows ensures s'.rows[id].id == id && SchemaOk(s'.rows[id]) && id in s'.issued {
      assert StoredRow(s', id) == Some(s'.rows[id]);
      if StoredRow(s', id) == StoredRow(s, id) {
        assert id in s.rows;
      } else {
        assert id == s'.txs[t].target;
      }
    }
  }

  lemma KeepsCreatesApart(cfg: Config, s: State, s': State, t: TxId)
    requires CreatesApart(s) && Local(s, s', t)
    requires t !in s.txs && s'.txs[t].kind.Creating? ==> s'.txs[t].target !in s.issued && s'.txs[t].target in s'.issued
    ensures CreatesApart(s')
  {
  }

  lemma KeepsEventsApart(cfg: Config, s: State, s': State, t: TxId)
    requires EventsApart(s) && GoodStep(cfg, s, s', t)
    ensures EventsApart(s')
  {
    var n := |s.history|;
    assert forall i :: 0 <= i < n ==> s'.history[i] == s.history[i];
    assert forall i :: n <= i < |s'.history| ==>
      t in s.txs && s.txs[t].phase.Staged? && s'.history[i].event == s.txs[t].phase.event && s'.txs[t].phase.Done?;
  }

  lemma NewCreateIsFresh(cfg: Config, s: State, a: Action)
    requires Enabled(cfg, s, a) && a.t !in s.txs
    ensures var s' := Apply(cfg, s, a);
            a.t in s'.txs &&
            (s'.txs[a.t].kind.Creating? ==> s'.txs[a.t].target !in s.issued && s'.txs[a.t].target in s'.issued)
  {
  }

  lemma StepKeepsSafe(cfg: Config, s: State, s': State, a: Action)
    requires Safe(cfg, s) && Next(cfg, s, a, s')
    ensures Safe(cfg, s') && GoodStep(cfg, s, s', a.t)
  {
    SafeStep(cfg, s, a);
    if a.t !in s.txs { NewCreateIsFresh(cfg, s, a); }
    GoodStepKeepsSafe(cfg, s, s', a.t);
  }

  lemma GoodStepKeepsSafe(cfg: Config, s: State, s': State, t: TxId)
    requires Safe(cfg, s) && GoodStep(cfg, s, s', t)
    requires t !in s.txs && s'.txs[t].kind.Creating? ==> s'.txs[t].target !in s.issued && s'.txs[t].target in s'.issued
    ensures Safe(cfg, s')
  {
    KeepsPhases(cfg, s, s', t);
    KeepsLocks(cfg, s, s', t);
    KeepsRows(cfg, s, s', t);
    KeepsCreatesApart(cfg, s, s', t);
    KeepsEventsApart(cfg, s, s', t);
  }

  lemma {:induction false} RunIsSafe(cfg: Config, states: seq<State>, actions: seq<Action>, n: nat)
    requires IsRun(cfg, states, actions) && n < |states|
    ensures Safe(cfg, states[n])
  {
    if n > 0 {
      RunIsSafe(cfg, states, actions, n - 1);
      StepKeepsSafe(cfg, states[n - 1], states[n], actions[n - 1]);
    }
  }
}
